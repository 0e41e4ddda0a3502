/** The per-context plugin state: the error-log handler chunk and the tag plugin chunk, whose list
    of registered tags is searched front to back. */
module Chunks {
  import opened Options
  import opened Signatures
  import opened PluginTags

  /** A log-error handler function. Function pointers are modelled by identity: the library's
      default no-op handler, or one a client supplied, told apart by a number. */
  datatype LogErrorHandlerFunction = DefaultLogErrorHandler | ClientHandler(id: nat)

  /** `LogErrorChunk`. */
  class LogErrorChunk {
    var handler: LogErrorHandlerFunction

    /** `LogErrorChunk::new`: the given handler, or the default one. */
    constructor (func: Option<LogErrorHandlerFunction>)
      ensures func.Some? ==> handler == func.value
      ensures func.None? ==> handler == DefaultLogErrorHandler
    {
      handler := if func.Some? then func.value else DefaultLogErrorHandler;
    }
  }

  /** The index of the first item registered under `sig`, if any. */
  function Lookup(items: seq<TagListItem>, sig: Signature): (k: Option<nat>)
    ensures k.None? <==> forall i | 0 <= i < |items| :: items[i].sig != sig
    ensures k.Some? ==> k.value < |items| && items[k.value].sig == sig &&
                        forall j | 0 <= j < k.value :: items[j].sig != sig
  {
    if items == [] then None
    else if items[0].sig == sig then Some(0)
    else
      var rest := Lookup(items[1..], sig);
      if rest.None? then None else Some(rest.value + 1)
  }

  /** Adding an item at the end changes no lookup that already succeeded, and makes a failed
      lookup of the new item's signature find it. */
  lemma {:induction false} LookupAppend(items: seq<TagListItem>, item: TagListItem, sig: Signature)
    ensures Lookup(items, sig).Some? ==> Lookup(items + [item], sig) == Lookup(items, sig)
    ensures Lookup(items, sig).None? && item.sig == sig ==> Lookup(items + [item], sig) == Some(|items|)
    ensures Lookup(items, sig).None? && item.sig != sig ==> Lookup(items + [item], sig).None?
  {
    var all := items + [item];
    if Lookup(items, sig).Some? {
      var k := Lookup(items, sig).value;
      assert all[k].sig == sig;
      assert forall j | 0 <= j < k :: all[j].sig != sig;
    } else {
      assert forall j | 0 <= j < |items| :: all[j].sig != sig;
      if item.sig == sig {
        assert all[|items|].sig == sig;
        var found := Lookup(all, sig);
        assert found.Some? && !(found.value < |items|);
      }
    }
  }

  /** `TagPluginChunk`. */
  class TagPluginChunk {
    var tag: seq<TagListItem>

    /** `TagPluginChunk::new`: no tags registered. */
    constructor ()
      ensures tag == []
    {
      tag := [];
    }

    /** `get_tag_descriptor`: the descriptor of the first item registered under `signature`. */
    method GetTagDescriptor(signature: Signature) returns (r: Option<TagDescriptor>)
      ensures Lookup(tag, signature).None? ==> r.None?
      ensures Lookup(tag, signature).Some? ==> r.Some? && r.value == tag[Lookup(tag, signature).value].desc
    {
      var i := 0;
      while i < |tag|
        invariant 0 <= i <= |tag|
        invariant forall j | 0 <= j < i :: tag[j].sig != signature
      {
        if tag[i].sig == signature {
          return Some(tag[i].desc);
        }
        i := i + 1;
      }
      return None;
    }
  }
}
