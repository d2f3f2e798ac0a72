/**
 * The `a{sv}` option dictionaries the client sends with each portal request,
 * as an ordered list of key/value entries, and the GVariantBuilder that
 * collects them.
 */
module Vardict {
  import opened PortalTypes

  /** The variant payloads the client ever puts in an option dictionary. */
  datatype Variant = U32(u: uint32) | Bool(b: bool) | Str(s: string)

  /** The option keys the client uses; `Name` gives their spelling on the bus. */
  datatype Key = Types | Multiple | CursorMode | PersistMode | RestoreToken | HandleToken | SessionHandleToken
  {
    function Name(): (spelling: string) {
      match this
      case Types => "types"
      case Multiple => "multiple"
      case CursorMode => "cursor_mode"
      case PersistMode => "persist_mode"
      case RestoreToken => "restore_token"
      case HandleToken => "handle_token"
      case SessionHandleToken => "session_handle_token"
    }
  }

  datatype Entry = Entry(key: Key, value: Variant)

  predicate HasKey(opts: seq<Entry>, key: Key) {
    exists i :: 0 <= i < |opts| && opts[i].key == key
  }

  /** No entry before index `i` has `key`. */
  predicate AbsentBefore(opts: seq<Entry>, key: Key, i: int)
    requires i <= |opts|
  {
    forall j :: 0 <= j < i ==> opts[j].key != key
  }

  /** What a reader of the dictionary finds under `key`: the first entry with that key. */
  function Lookup(opts: seq<Entry>, key: Key): (r: Option<Variant>)
    ensures r.Some? <==> HasKey(opts, key)
    ensures r.Some? ==> exists i :: 0 <= i < |opts| && opts[i] == Entry(key, r.value) && AbsentBefore(opts, key, i)
  {
    if opts == [] then None
    else if opts[0].key == key then Some(opts[0].value)
    else
      var r := Lookup(opts[1..], key);
      assert forall i :: 0 <= i < |opts| - 1 ==> opts[1..][i] == opts[i + 1];
      if r.Some? then
        var i :| 0 <= i < |opts| - 1 && opts[1..][i] == Entry(key, r.value) && AbsentBefore(opts[1..], key, i);
        assert opts[i + 1] == Entry(key, r.value) && AbsentBefore(opts, key, i + 1);
        r
      else r
  }

  /** Distinct keys are spelled differently on the bus. */
  lemma NamesDistinct(a: Key, b: Key)
    ensures a.Name() == b.Name() ==> a == b
  {
    if a != b {
      assert a.Name() != b.Name() by {
        var na, nb := a.Name(), b.Name();
        if |na| == |nb| {
          assert na[0] != nb[0];
        }
      }
    }
  }

  /** No key is used twice. */
  predicate UniqueKeys(opts: seq<Entry>) {
    forall i, j :: 0 <= i < j < |opts| ==> opts[i].key != opts[j].key
  }

  /** With unique keys, looking up an entry's key finds that entry's value. */
  lemma {:induction false} LookupUnique(opts: seq<Entry>, i: nat)
    requires UniqueKeys(opts) && i < |opts|
    ensures Lookup(opts, opts[i].key) == Some(opts[i].value)
  {
    if i > 0 {
      assert opts[1..][i - 1] == opts[i];
      LookupUnique(opts[1..], i - 1);
    }
  }

  /** The `handle_token` string of a request's options, if it has one. */
  function RequestToken(opts: seq<Entry>): (token: Option<string>) {
    match Lookup(opts, Key.HandleToken)
    case Some(Str(t)) => Some(t)
    case _ => None
  }

  /** A `GVariantBuilder` of type `a{sv}`: entries are appended in call order. */
  class VardictBuilder {
    var entries: seq<Entry>

    constructor ()
      ensures entries == []
    {
      entries := [];
    }

    /** `g_variant_builder_add(&builder, "{sv}", key, value)` */
    method Add(key: Key, value: Variant)
      modifies this
      ensures entries == old(entries) + [Entry(key, value)]
    {
      entries := entries + [Entry(key, value)];
    }
  }
}
