/**
 * The option dictionary of the ScreenCast `SelectSources` request
 * (main.c `sources_request`).
 *
 * It asks for monitor capture (`types` = 1) of a single source
 * (`multiple` = false), adds `cursor_mode` = 4 (cursor as metadata) only when
 * the portal's cached `AvailableCursorModes` property has that bit, adds
 * `persist_mode` = 0 only when the cached `version` property is at least 4,
 * and ends with the request's `handle_token`.
 */
module SourceSelection {
  import opened PortalTypes
  import opened Vardict

  const MonitorSource: uint32 := 1
  const MetadataCursor: uint32 := 4
  const DoNotPersist: uint32 := 0
  const PersistSinceVersion: uint32 := 4

  /** `modes & mask` is nonzero, for a mask with a single bit set (4 is bit 2). */
  predicate MaskSet(modes: uint32, mask: uint32)
    requires mask > 0
  {
    (modes as int / mask as int) % 2 == 1
  }

  /** The cached `AvailableCursorModes` property is present and has the metadata bit. */
  predicate CursorModeAdvertised(cursorModes: Option<uint32>): (b: bool)
    ensures b <==> cursorModes.Some? && (cursorModes.value as int as bv32) & 4 != 0
  {
    cursorModes.Some? && MaskSet(cursorModes.value, MetadataCursor)
  }

  /** The cached `version` property is present and at least 4. */
  predicate PersistSupported(version: Option<uint32>): (b: bool)
    ensures b <==> version.Some? && version.value as int >= 4
  {
    version.Some? && version.value >= PersistSinceVersion
  }

  /** The options `sources_request` hands to `SelectSources`, in the order it adds them. */
  function SourcesOptions(cursorModes: Option<uint32>, version: Option<uint32>, token: string): (opts: seq<Entry>)
    ensures |opts| == 3 + (if CursorModeAdvertised(cursorModes) then 1 else 0)
                        + (if PersistSupported(version) then 1 else 0)
    ensures opts[0] == Entry(Types, U32(MonitorSource))
    ensures opts[1] == Entry(Multiple, Bool(false))
    ensures opts[|opts| - 1] == Entry(HandleToken, Str(token))
    ensures UniqueKeys(opts)
    ensures RequestToken(opts) == Some(token)
  {
    var cursor := if CursorModeAdvertised(cursorModes) then [Entry(CursorMode, U32(MetadataCursor))] else [];
    var persist := if PersistSupported(version) then [Entry(PersistMode, U32(DoNotPersist))] else [];
    var opts := [Entry(Types, U32(MonitorSource)), Entry(Multiple, Bool(false))] + cursor + persist
      + [Entry(HandleToken, Str(token))];
    assert UniqueKeys(opts);
    LookupUnique(opts, |opts| - 1);
    opts
  }

  /**
   * What the portal reads from the options: `cursor_mode` = 4 exactly when
   * the metadata bit is advertised, `persist_mode` = 0 exactly when the
   * version supports it, and never a `restore_token`.
   */
  lemma SourcesOptionsLookups(cursorModes: Option<uint32>, version: Option<uint32>, token: string)
    ensures var opts := SourcesOptions(cursorModes, version, token);
            && Lookup(opts, CursorMode) == (if CursorModeAdvertised(cursorModes) then Some(U32(MetadataCursor)) else None)
            && Lookup(opts, PersistMode) == (if PersistSupported(version) then Some(U32(DoNotPersist)) else None)
            && Lookup(opts, RestoreToken) == None
  {
    var opts := SourcesOptions(cursorModes, version, token);
    assert !HasKey(opts, RestoreToken);
    if CursorModeAdvertised(cursorModes) {
      assert opts[2] == Entry(CursorMode, U32(MetadataCursor));
      LookupUnique(opts, 2);
    } else {
      assert !HasKey(opts, CursorMode);
    }
    if PersistSupported(version) {
      assert opts[|opts| - 2] == Entry(PersistMode, U32(DoNotPersist));
      LookupUnique(opts, |opts| - 2);
    } else {
      assert !HasKey(opts, PersistMode);
    }
  }

  /** The builder sequence of `sources_request`, in the source's order. */
  method BuildSourcesOptions(cursorModes: Option<uint32>, version: Option<uint32>, token: string)
    returns (opts: seq<Entry>)
    ensures opts == SourcesOptions(cursorModes, version, token)
  {
    var builder := new VardictBuilder();
    builder.Add(Types, U32(MonitorSource));
    builder.Add(Multiple, Bool(false));
    if cursorModes.Some? {
      var modes := cursorModes.value;
      if MaskSet(modes, MetadataCursor) {
        builder.Add(CursorMode, U32(MetadataCursor));
      }
    }
    if version.Some? {
      var v := version.value;
      if v >= PersistSinceVersion {
        builder.Add(PersistMode, U32(DoNotPersist));
      }
    }
    builder.Add(HandleToken, Str(token));
    opts := builder.entries;
  }
}
