/** The Home page: it loads a theme document and publishes it for the pages
    to be built, and it collects the data every setting page sends back into
    `new_data`, which it shows and writes when saving. File dialogs, JSON
    reading and writing are inputs and outputs of the methods here. */
module Home {
  import opened Types
  import opened Dicts
  import opened Base

  /** `new_data` after receiving each (sender, data) pair in order. */
  function Collected(newData: Document, replies: seq<(string, PageData)>): Document
  {
    if replies == [] then newData
    else Put(Collected(newData, replies[..|replies| - 1]), replies[|replies| - 1].0, replies[|replies| - 1].1)
  }

  class HomePage {
    var newData: Document
    /** The document the load textbox shows, once a file was loaded. */
    var loaded: Option<Document>
    /** The document the save textbox shows, once a save was started. */
    var shown: Option<Document>
    /** The document last written to a file. */
    var written: Option<Document>

    /** `HomePage.__init__`: `on_recieve_data` is registered for RECIEVE_DATA
        and `new_data` starts empty. */
    constructor (bus: EventBus<Callback>)
      modifies bus
      ensures newData == [] && loaded == None && shown == None && written == None
      ensures bus.listeners == Subscribed(old(bus.listeners), RECIEVE_DATA, HomeRecieveData)
    {
      newData := [];
      loaded := None;
      shown := None;
      written := None;
      new;
      Register(bus, Some([(RECIEVE_DATA, HomeRecieveData)]));
    }

    /** `load_file`: the parsed document is shown and then published as
        BUILD_PAGE, unchanged. */
    method LoadFile(doc: Document) returns (p: Publication)
      modifies this
      ensures p.BuildPage? && p.data == doc && EventOf(p) == BUILD_PAGE
      ensures loaded == Some(doc)
      ensures newData == old(newData) && shown == old(shown) && written == old(written)
    {
      loaded := Some(doc);
      p := BuildPage(doc);
    }

    /** `on_recieve_data`: `new_data[fm] = data`. */
    method OnRecieveData(fm: string, data: PageData)
      modifies this
      ensures newData == Put(old(newData), fm, data)
      ensures loaded == old(loaded) && shown == old(shown) && written == old(written)
    {
      newData := Put(newData, fm, data);
    }

    /** The rest of `on_save_file`: `new_data` is shown and, when the user
        chose a file, the same `new_data` is written to it. */
    method WriteSave(fileChosen: bool)
      modifies this
      ensures shown == Some(newData)
      ensures written == if fileChosen then Some(newData) else old(written)
      ensures newData == old(newData) && loaded == old(loaded)
    {
      shown := Some(newData);
      if fileChosen {
        written := Some(newData);
      }
    }
  }

  /** Receiving data never removes an entry: every sender seen before is
      still there, with its data unless it sent again. */
  lemma {:induction false} CollectedKeeps(newData: Document, replies: seq<(string, PageData)>, k: string)
    requires k in Keys(newData)
    ensures k in Keys(Collected(newData, replies))
    ensures k !in Keys(replies) ==> Get(Collected(newData, replies), k) == Get(newData, k)
  {
    if replies != [] {
      var init := replies[..|replies| - 1];
      var (fm, data) := replies[|replies| - 1];
      CollectedKeeps(newData, init, k);
      PutKeys(Collected(newData, init), fm, data);
      GetPut(Collected(newData, init), fm, data, k);
      assert Keys(init) == Keys(replies)[..|replies| - 1];
    }
  }

  /** The last data received from a sender is what `new_data` holds for it. */
  lemma {:induction false} CollectedLast(newData: Document, replies: seq<(string, PageData)>, i: nat)
    requires i < |replies|
    requires forall j | i < j < |replies| :: replies[j].0 != replies[i].0
    ensures Get(Collected(newData, replies), replies[i].0) == Some(replies[i].1)
  {
    var init := replies[..|replies| - 1];
    var (fm, data) := replies[|replies| - 1];
    GetPut(Collected(newData, init), fm, data, replies[i].0);
    if i < |replies| - 1 {
      CollectedLast(newData, init, i);
    }
  }

  /** Starting from an empty `new_data`, senders with distinct names are
      collected exactly, in the order they replied. */
  lemma {:induction false} CollectedFresh(replies: seq<(string, PageData)>)
    requires Distinct(Keys(replies))
    ensures Collected([], replies) == replies
  {
    if replies != [] {
      var init := replies[..|replies| - 1];
      assert Keys(init) == Keys(replies)[..|replies| - 1];
      CollectedFresh(init);
      PutFresh(init, replies[|replies| - 1].0, replies[|replies| - 1].1);
      assert init + [replies[|replies| - 1]] == replies;
    }
  }
}
