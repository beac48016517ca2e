/** Shared vocabulary of the theme editor: event names, sidebar frame names,
    the shape of a theme document, the exceptions the components raise, the
    identities of the callbacks registered on the event bus and the messages
    the components publish. */
module Types {

  datatype Option<+T> = None | Some(value: T)

  datatype Result<+T, +E> = Success(value: T) | Failure(error: E)

  /** The Python exceptions the modelled code raises. `TclError` is what Tk
      raises when a destroyed widget is used. `Unmodelled` stands for a value
      whose conversion is done by Tk and is not part of this model. */
  datatype Error =
    | ValueError
    | TypeError
    | IndexError
    | KeyError
    | AttributeError
    | TclError
    | Unmodelled

  // Event names (an enum.StrEnum with enum.auto(): the lower-case member name).
  const SHOW_PAGE := "show_page"
  const BUILD_PAGE := "build_page"
  const DEL_ALL_BUTTON := "del_all_button"
  const ADD_BUTTON := "add_button"
  const CHANGE_CONF := "change_conf"
  const GET_DATA := "get_data"
  const RECIEVE_DATA := "recieve_data"

  // Sidebar frame names (also a StrEnum).
  const HEADER := "header"
  const MAIN := "main"

  /** Name of the Home page and of its sidebar button. */
  const FIRST_PAGE_NAME := "Home"

  /** A sub-value of a font setting: `int | str`. */
  datatype Scalar = SInt(n: int) | SStr(s: string)

  /** A theme setting value: `int | str | list[str] | dict[str, int | str]`.
      A dict is kept as its items in insertion order. */
  datatype Value =
    | VInt(n: int)
    | VStr(s: string)
    | VList(items: seq<string>)
    | VDict(entries: seq<(string, Scalar)>)

  /** The settings of one widget kind (one page), in insertion order. */
  type PageData = seq<(string, Value)>

  /** A whole theme document: widget kind to its settings, in insertion order. */
  type Document = seq<(string, PageData)>

  /** The callbacks that components register on the bus, by identity.
      Each setting page object has its own bound `on_get_data`. */
  datatype Callback =
    | SideBarDelAllButton
    | SideBarAddButton
    | SideBarSelectButton
    | AppShowPage
    | AppBuildPage
    | HomeRecieveData
    | SampleChangeConf
    | SettingGetData(instance: nat)

  /** A call to `emit` with its keyword arguments. */
  datatype Publication =
    | ShowPage(pageName: string)
    | BuildPage(data: Document)
    | DelAllButton(excludePageName: string)
    | AddButton(frameName: string, buttonName: string)
    | ChangeConf(itemName: string, values: PageData)
    | GetData
    | RecieveData(fm: string, sent: PageData)

  /** The event name a publication is emitted under. */
  function EventOf(p: Publication): string
  {
    match p
    case ShowPage(_) => SHOW_PAGE
    case BuildPage(_) => BUILD_PAGE
    case DelAllButton(_) => DEL_ALL_BUTTON
    case AddButton(_, _) => ADD_BUTTON
    case ChangeConf(_, _) => CHANGE_CONF
    case GetData => GET_DATA
    case RecieveData(_, _) => RECIEVE_DATA
  }
}
