/**
 The bootstrap document of a graceful switch: every inbound zeroed so that the
 new process can run beside the old one, and restored afterwards by a patch.
 */
module Bootstrap {
  import opened Wrappers
  import opened Document
  import opened Mihomo

  predicate FitsI64(n: int) {
    -0x8000_0000_0000_0000 <= n < 0x8000_0000_0000_0000
  }

  /** A port that is a machine integer other than zero; anything else is left as it is. */
  predicate NonzeroPort(document: Mapping, key: string) {
    key in document && document[key].Int? && FitsI64(document[key].number) && document[key].number != 0
  }

  function ZeroListeners(document: Mapping, keys: seq<string>): (r: Mapping)
    decreases |keys|
  {
    if keys == [] then document
    else ZeroListeners(if NonzeroPort(document, keys[0]) then document[keys[0] := Int(0)] else document, keys[1..])
  }

  predicate TunEnabled(document: Mapping) {
    "tun" in document && document["tun"].Map? && Child(Some(document["tun"]), "enable") == Some(Bool(true))
  }

  function DisableTun(document: Mapping): (r: Mapping) {
    if TunEnabled(document) then document["tun" := Map(document["tun"].entries["enable" := Bool(false)])] else document
  }

  function ZeroInbounds(document: Mapping): (r: Mapping) {
    DisableTun(ZeroListeners(document, INBOUND_PORT_FIELDS))
  }

  /** What `prepare` is told: the managed endpoint when local IPC is on, and the host's channel settings. */
  datatype ChannelSettings = ChannelSettings(endpoint: Option<string>, keepHttp: bool, explicit: bool, windows: bool)

  function RewriteController(document: Mapping, endpoint: string, keepHttp: bool, windows: bool): (r: Mapping) {
    var dropped := {EXTERNAL_CONTROLLER_PIPE, EXTERNAL_CONTROLLER_UNIX}
                   + if keepHttp then {} else {EXTERNAL_CONTROLLER, EXTERNAL_CONTROLLER_TLS};
    (document - dropped)[if windows then EXTERNAL_CONTROLLER_PIPE else EXTERNAL_CONTROLLER_UNIX := String(endpoint)]
  }

  function ApplyChannel(document: Mapping, settings: ChannelSettings): (r: Mapping) {
    if settings.endpoint.Some? then
      RewriteController(document, settings.endpoint.value, settings.explicit && settings.keepHttp, settings.windows)
    else if settings.explicit then document - {EXTERNAL_CONTROLLER_PIPE, EXTERNAL_CONTROLLER_UNIX}
    else document
  }

  function Prepare(document: Mapping, settings: ChannelSettings, zero: bool): (r: Mapping) {
    ApplyChannel(if zero then ZeroInbounds(document) else document, settings)
  }

  datatype Restoration =
    | NothingToRestore
    | RestoreWith(document: Mapping, expected: seq<Leaf>)
    | Unrestorable
    | Failed(error: Error)

  function RestorationPatch(bootstrap: Mapping, desired: Mapping, decode: Decoder): (r: Restoration) {
    match ClassifyDocuments(bootstrap, desired, decode)
    case Err(error) => Failed(error)
    case Ok(Noop) => NothingToRestore
    case Ok(Patch(document, expected)) => RestoreWith(document, expected)
    case Ok(_) => Unrestorable
  }

  // --------------------------------------------------------------- zeroing, key by key

  /** Zeroing works on each key by itself. */
  function ZeroedValue(key: string, value: Value): (r: Value) {
    if key in INBOUND_PORT_FIELDS then
      if value.Int? && FitsI64(value.number) && value.number != 0 then Int(0) else value
    else if key == "tun" && value.Map? && Child(Some(value), "enable") == Some(Bool(true)) then
      Map(value.entries["enable" := Bool(false)])
    else value
  }

  lemma {:induction false} ZeroListenersAt(document: Mapping, keys: seq<string>, k: string)
    ensures k in ZeroListeners(document, keys) <==> k in document
    ensures k in document ==>
      ZeroListeners(document, keys)[k] == if k in keys && NonzeroPort(document, k) then Int(0) else document[k]
    decreases |keys|
  {
    if keys != [] {
      ZeroListenersAt(if NonzeroPort(document, keys[0]) then document[keys[0] := Int(0)] else document, keys[1..], k);
    }
  }

  lemma ZeroInboundsAt(document: Mapping, k: string)
    ensures k in ZeroInbounds(document) <==> k in document
    ensures k in document ==> ZeroInbounds(document)[k] == ZeroedValue(k, document[k])
  {
    ZeroListenersAt(document, INBOUND_PORT_FIELDS, k);
    ZeroListenersAt(document, INBOUND_PORT_FIELDS, "tun");
    assert "tun" !in INBOUND_PORT_FIELDS;
  }

  /** Zeroing and the channel rewrite touch different keys, so their order does not matter. */
  lemma ZeroingCommutesWithChannel(document: Mapping, settings: ChannelSettings)
    ensures ApplyChannel(ZeroInbounds(document), settings) == ZeroInbounds(ApplyChannel(document, settings))
  {
    var a, b := ApplyChannel(ZeroInbounds(document), settings), ZeroInbounds(ApplyChannel(document, settings));
    forall k | k in a || k in b ensures k in a && k in b && a[k] == b[k] {
      ZeroInboundsAt(document, k);
      ZeroInboundsAt(ApplyChannel(document, settings), k);
      if k in CONTROLLER_FIELDS {
        ChannelKeysAreNotZeroed(k);
      }
    }
  }

  lemma ChannelKeysAreNotZeroed(k: string)
    requires k in CONTROLLER_FIELDS
    ensures k !in INBOUND_PORT_FIELDS && k != "tun"
  {
  }

  // ---------------------------------------------------------------- restoration

  lemma ScalarChange(current: Value, desired: Value, e: DiffEntry)
    requires !current.Map? && !desired.Map?
    requires e in Diff(Some(current), Some(desired))
    ensures e == DiffEntry([], Some(desired))
  {
  }

  /** Disabling `enable` in a mapping is undone by the one entry that sets it. */
  lemma EnableChange(tun: Mapping, e: DiffEntry)
    requires Child(Some(Map(tun)), "enable") == Some(Bool(true))
    requires e in Diff(Some(Map(tun["enable" := Bool(false)])), Some(Map(tun)))
    ensures e == DiffEntry(["enable"], Some(Bool(true)))
  {
    ChangeBelow(tun["enable" := Bool(false)], tun, e);
    EnableBelow(tun, e.path[0], DiffEntry(e.path[1..], e.target));
    PathSplits(e);
  }

  lemma EnableBelow(tun: Mapping, k: string, below: DiffEntry)
    requires Child(Some(Map(tun)), "enable") == Some(Bool(true))
    requires below in Diff(Child(Some(Map(tun["enable" := Bool(false)])), k), Child(Some(Map(tun)), k))
    ensures k == "enable" && below == DiffEntry([], Some(Bool(true)))
  {
    if k == "enable" {
      EnableEntry(below);
    } else {
      OtherFieldsStay(tun, k);
    }
  }

  lemma EnableEntry(below: DiffEntry)
    requires below in Diff(Some(Bool(false)), Some(Bool(true)))
    ensures below == DiffEntry([], Some(Bool(true)))
  {
    ScalarChange(Bool(false), Bool(true), below);
  }

  lemma OtherFieldsStay(tun: Mapping, k: string)
    requires k != "enable"
    ensures Diff(Child(Some(Map(tun["enable" := Bool(false)])), k), Child(Some(Map(tun)), k)) == []
  {
  }

  /** Where zeroing shows: a port that was a number, or an enabled `tun`. */
  lemma ZeroedChild(document: Mapping, zeroed: Mapping, k: string)
    requires zeroed == ZeroInbounds(document) && Child(Some(Map(zeroed)), k) != Child(Some(Map(document)), k)
    ensures k in document && k in zeroed
    ensures k in INBOUND_PORT_FIELDS ==> zeroed[k] == Int(0) && document[k].Int?
    ensures k !in INBOUND_PORT_FIELDS ==>
      && k == "tun" && document[k].Map? && Child(Some(document[k]), "enable") == Some(Bool(true))
      && zeroed[k] == Map(document[k].entries["enable" := Bool(false)])
  {
    ZeroInboundsAt(document, k);
  }

  /** A zeroed document differs from the original in ports set back to numbers and in `tun.enable` set back to true. */
  predicate Restoring(document: Mapping, e: DiffEntry) {
    || (|e.path| == 1 && e.path[0] in INBOUND_PORT_FIELDS && e.path[0] in document
        && e.target == Some(document[e.path[0]]))
    || e == DiffEntry(["tun", "enable"], Some(Bool(true)))
  }

  lemma RestoringEntry(document: Mapping, zeroed: Mapping, e: DiffEntry)
    requires zeroed == ZeroInbounds(document) && e in Changes(zeroed, document)
    ensures Restoring(document, e)
  {
    ChangeBelow(zeroed, document, e);
    ZeroedChild(document, zeroed, e.path[0]);
    RestoringUnder(document, zeroed, e.path[0], DiffEntry(e.path[1..], e.target));
    PathSplits(e);
  }

  lemma PathSplits(e: DiffEntry)
    requires e.path != []
    ensures DiffEntry([e.path[0]] + e.path[1..], e.target) == e
  {
  }

  lemma RestoringUnder(document: Mapping, zeroed: Mapping, k: string, below: DiffEntry)
    requires zeroed == ZeroInbounds(document) && Child(Some(Map(zeroed)), k) != Child(Some(Map(document)), k)
    requires below in Diff(Child(Some(Map(zeroed)), k), Child(Some(Map(document)), k))
    ensures Restoring(document, DiffEntry([k] + below.path, below.target))
  {
    ZeroedChild(document, zeroed, k);
    RestoringBelow(document, k, zeroed[k], below);
  }

  lemma RestoringBelow(document: Mapping, k: string, zeroed: Value, below: DiffEntry)
    requires k in document && below in Diff(Some(zeroed), Some(document[k]))
    requires k in INBOUND_PORT_FIELDS ==> zeroed == Int(0) && document[k].Int?
    requires k !in INBOUND_PORT_FIELDS ==>
      && k == "tun" && document[k].Map? && Child(Some(document[k]), "enable") == Some(Bool(true))
      && zeroed == Map(document[k].entries["enable" := Bool(false)])
    ensures Restoring(document, DiffEntry([k] + below.path, below.target))
  {
    if k in INBOUND_PORT_FIELDS {
      ScalarChange(zeroed, document[k], below);
    } else {
      EnableChange(document[k].entries, below);
      assert [k] + ["enable"] == ["tun", "enable"];
    }
  }

  lemma PortIsPatchable(k: string, value: Value)
    requires k in INBOUND_PORT_FIELDS
    ensures PatchEntry(DiffEntry([k], Some(value))) && k != "tuic-server"
  {
  }

  lemma EnableIsPatchable()
    ensures PatchEntry(DiffEntry(["tun", "enable"], Some(Bool(true))))
  {
    assert "enable" in TUN_PATCH_FIELDS && "tun" in PATCH_FIELDS;
  }

  lemma RestoringEntryIsPatch(document: Mapping, e: DiffEntry)
    requires e in Changes(ZeroInbounds(document), document)
    ensures PatchEntry(e) && e.path[0] != "tuic-server"
  {
    RestoringEntry(document, ZeroInbounds(document), e);
    if e == DiffEntry(["tun", "enable"], Some(Bool(true))) {
      EnableIsPatchable();
    } else {
      PortIsPatchable(e.path[0], e.target.value);
    }
  }

  lemma RestoringPatchKeepsEnable(document: Mapping)
    requires var roots := Roots(Changes(ZeroInbounds(document), document)); Buildable(document, roots)
    ensures var patch := RootValues(document, Roots(Changes(ZeroInbounds(document), document)));
      !LacksEnable(patch, "tun") && !LacksEnable(patch, "tuic-server")
  {
    var roots := Roots(Changes(ZeroInbounds(document), document));
    var patch := RootValues(document, roots);
    if "tuic-server" in roots {
      TuicNeverMoves(document);
    }
    if "tun" in roots {
      MovedTunIsEnabled(document);
      assert "enable" in TUN_PATCH_FIELDS;
      assert Child(Some(patch["tun"]), "enable") == Some(Bool(true));
    }
  }

  lemma TuicNeverMoves(document: Mapping)
    ensures "tuic-server" !in Roots(Changes(ZeroInbounds(document), document))
  {
    if "tuic-server" in Roots(Changes(ZeroInbounds(document), document)) {
      var e :| e in Changes(ZeroInbounds(document), document) && e.path != [] && e.path[0] == "tuic-server";
      RestoringEntryIsPatch(document, e);
    }
  }

  lemma MovedTunIsEnabled(document: Mapping)
    requires "tun" in Roots(Changes(ZeroInbounds(document), document))
    ensures "tun" in document && document["tun"].Map? && Child(Some(document["tun"]), "enable") == Some(Bool(true))
  {
    RootMoved(ZeroInbounds(document), document, "tun");
    ZeroedChild(document, ZeroInbounds(document), "tun");
    assert "tun" !in INBOUND_PORT_FIELDS;
  }

  /** The restoration between two documents whose changes are all patchable and keep their enables. */
  lemma PatchableIsRestorable(bootstrap: Mapping, desired: Mapping, decode: Decoder)
    requires AllPatch(Changes(bootstrap, desired)) && DnsListen(bootstrap) == DnsListen(desired)
    requires var roots := Roots(Changes(bootstrap, desired));
      Buildable(desired, roots)
      && !LacksEnable(RootValues(desired, roots), "tun") && !LacksEnable(RootValues(desired, roots), "tuic-server")
    ensures var document := RootValues(desired, Roots(Changes(bootstrap, desired)));
      RestorationPatch(bootstrap, desired, decode)
      == if bootstrap == desired then NothingToRestore
         else if decode(document).None? then Unrestorable
         else RestoreWith(document, Leaves(decode(document).value))
  {
    PatchableVerdict(bootstrap, desired, decode);
    BuildPatchVerdict(bootstrap, desired, decode);
  }

  /**
   The bootstrap is lossless. Classifying a zeroed document against the original
   is a no-op when nothing was zeroed, and otherwise reaches a patch document
   that merges back to the original: only the typed decoder can refuse it.
   */
  lemma BootstrapIsLossless(document: Mapping, decode: Decoder)
    ensures var zeroed := ZeroInbounds(document);
      var roots := Roots(Changes(zeroed, document));
      && Buildable(document, roots)
      && Merge(zeroed, RootValues(document, roots)) == document
      && RestorationPatch(zeroed, document, decode)
         == if zeroed == document then NothingToRestore
            else if decode(RootValues(document, roots)).None? then Unrestorable
            else RestoreWith(RootValues(document, roots), Leaves(decode(RootValues(document, roots)).value))
  {
    var zeroed := ZeroInbounds(document);
    forall e | e in Changes(zeroed, document) ensures PatchEntry(e) {
      RestoringEntryIsPatch(document, e);
    }
    PatchPreservesMeaning(zeroed, document);
    RestoringPatchKeepsEnable(document);
    ZeroingKeepsDnsListen(document);
    PatchableIsRestorable(zeroed, document, decode);
  }

  lemma ZeroingKeepsDnsListen(document: Mapping)
    ensures DnsListen(ZeroInbounds(document)) == DnsListen(document)
  {
    ZeroInboundsAt(document, "dns");
    assert "dns" !in INBOUND_PORT_FIELDS;
  }

  /** The same between the two documents actually prepared for one epoch, verdict by verdict. */
  lemma PreparedBootstrapIsLossless(source: Mapping, settings: ChannelSettings, decode: Decoder)
    ensures var bootstrap := Prepare(source, settings, true);
      var full := Prepare(source, settings, false);
      var roots := Roots(Changes(bootstrap, full));
      && bootstrap == ZeroInbounds(full)
      && Buildable(full, roots)
      && Merge(bootstrap, RootValues(full, roots)) == full
      && RestorationPatch(bootstrap, full, decode)
         == if bootstrap == full then NothingToRestore
            else if decode(RootValues(full, roots)).None? then Unrestorable
            else RestoreWith(RootValues(full, roots), Leaves(decode(RootValues(full, roots)).value))
  {
    ZeroingCommutesWithChannel(source, settings);
    BootstrapIsLossless(Prepare(source, settings, false), decode);
  }

  // ---------------------------------------------------------- the edits in place

  /** A document being prepared, edited in place. */
  class EditableDocument {
    var entries: Mapping

    constructor (entries: Mapping)
      ensures this.entries == entries
    {
      this.entries := entries;
    }

    method ZeroListener(key: string)
      modifies this
      ensures entries == ZeroListeners(old(entries), [key])
    {
      assert [key][1..] == [];
      if NonzeroPort(entries, key) {
        entries := entries[key := Int(0)];
      }
    }

    method Zero()
      modifies this
      ensures entries == ZeroInbounds(old(entries))
    {
      var rest := INBOUND_PORT_FIELDS;
      while rest != []
        invariant ZeroListeners(entries, rest) == ZeroListeners(old(entries), INBOUND_PORT_FIELDS)
        decreases |rest|
      {
        assert [rest[0]][1..] == [];
        ZeroListener(rest[0]);
        rest := rest[1..];
      }
      if TunEnabled(entries) {
        entries := entries["tun" := Map(entries["tun"].entries["enable" := Bool(false)])];
      }
    }

    method RewriteManagedController(endpoint: string, keepHttp: bool, windows: bool)
      modifies this
      ensures entries == RewriteController(old(entries), endpoint, keepHttp, windows)
    {
      var rest := [EXTERNAL_CONTROLLER, EXTERNAL_CONTROLLER_TLS, EXTERNAL_CONTROLLER_PIPE, EXTERNAL_CONTROLLER_UNIX];
      ghost var kept := if keepHttp then {EXTERNAL_CONTROLLER, EXTERNAL_CONTROLLER_TLS} else {};
      ghost var all := set field | field in rest;
      while rest != []
        invariant forall field :: field in rest ==> field in all
        invariant entries - ((set field | field in rest) - kept) == old(entries) - (all - kept)
        decreases |rest|
      {
        var field := rest[0];
        assert (set f | f in rest) == {field} + set f | f in rest[1..];
        if !(field == EXTERNAL_CONTROLLER || field == EXTERNAL_CONTROLLER_TLS) || !keepHttp {
          entries := entries - {field};
        }
        rest := rest[1..];
      }
      assert entries == old(entries) - (all - kept);
      assert all - kept == {EXTERNAL_CONTROLLER_PIPE, EXTERNAL_CONTROLLER_UNIX}
                           + if keepHttp then {} else {EXTERNAL_CONTROLLER, EXTERNAL_CONTROLLER_TLS};
      entries := entries[if windows then EXTERNAL_CONTROLLER_PIPE else EXTERNAL_CONTROLLER_UNIX := String(endpoint)];
    }
  }
}
