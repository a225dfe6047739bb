/**
 Deny-by-default classification of Mihomo configuration changes, the patch it
 builds, and the bootstrap document a patch restores.

 The typed decoding of a patch document is a parameter: `decode` answers the
 value the decoded patch serializes back to, or nothing when it refuses.
 */
module Mihomo {
  import opened Wrappers
  import opened Document

  const INBOUND_PORT_FIELDS: seq<string> := ["port", "socks-port", "redir-port", "tproxy-port", "mixed-port"]

  const PATCH_FIELDS: seq<string> := [
    "port", "socks-port", "redir-port", "tproxy-port", "mixed-port", "tun", "tuic-server", "ss-config",
    "vmess-config", "tcptun-config", "udptun-config", "allow-lan", "skip-auth-prefixes", "lan-allowed-ips",
    "lan-disallowed-ips", "bind-address", "mode", "log-level", "ipv6", "sniffing", "tcp-concurrent",
    "find-process-mode", "interface-name"]

  const TUN_PATCH_FIELDS: seq<string> := [
    "enable", "device", "stack", "dns-hijack", "auto-route", "auto-detect-interface", "mtu", "gso", "gso-max-size",
    "inet6-address", "iproute2-table-index", "iproute2-rule-index", "auto-redirect", "auto-redirect-input-mark",
    "auto-redirect-output-mark", "auto-redirect-iproute2-fallback-rule-index", "loopback-address", "strict-route",
    "route-address", "route-address-set", "route-exclude-address", "route-exclude-address-set", "include-interface",
    "exclude-interface", "include-uid", "include-uid-range", "exclude-uid", "exclude-uid-range",
    "include-android-user", "include-package", "exclude-package", "include-mac-address", "exclude-mac-address",
    "endpoint-independent-nat", "udp-timeout", "icmp-timeout", "file-descriptor", "inet4-route-address",
    "inet6-route-address", "inet4-route-exclude-address", "inet6-route-exclude-address", "recvmsgx", "sendmsgx"]

  const TUIC_SERVER_PATCH_FIELDS: seq<string> := [
    "enable", "listen", "token", "users", "certificate", "private-key", "congestion-controller", "max-idle-time",
    "authentication-timeout", "alpn", "max-udp-relay-packet-size", "cwnd", "bbr-profile"]

  const RELOAD_FIELDS: seq<string> := [
    "proxies", "proxy-groups", "proxy-providers", "rule-providers", "providers", "rules", "hosts", "dns"]

  const EXTERNAL_CONTROLLER := "external-controller"
  const EXTERNAL_CONTROLLER_PIPE := "external-controller-pipe"
  const EXTERNAL_CONTROLLER_UNIX := "external-controller-unix"
  const EXTERNAL_CONTROLLER_TLS := "external-controller-tls"
  const SECRET := "secret"

  const CONTROLLER_FIELDS: seq<string> :=
    [EXTERNAL_CONTROLLER, EXTERNAL_CONTROLLER_TLS, EXTERNAL_CONTROLLER_PIPE, EXTERNAL_CONTROLLER_UNIX, SECRET]

  datatype Error = InvalidConfig(message: string)

  type Decoder = Mapping -> Option<Value>

  datatype ConfigChange =
    | Noop
    | Patch(document: Mapping, expected: seq<Leaf>)
    | Reload
    | Switch

  // ---------------------------------------------------------------------- merge

  /** Deep merge, the semantics a patch has on the receiving side. */
  function Merge(target: Mapping, patch: Mapping): (r: Mapping)
    decreases Map(patch)
  {
    map k | k in target.Keys + patch.Keys ::
      if k in patch then
        if k in target && target[k].Map? && patch[k].Map? then Map(Merge(target[k].entries, patch[k].entries))
        else patch[k]
      else target[k]
  }

  // ------------------------------------------------------------- classification

  predicate IsDnsListen(path: Path) {
    |path| >= 2 && path[0] == "dns" && path[1] == "listen"
  }

  function DnsListen(document: Mapping): (r: Option<Value>) {
    Child(Child(Some(Map(document)), "dns"), "listen")
  }

  function NestedFields(root: string): (r: Option<seq<string>>) {
    if root == "tun" then Some(TUN_PATCH_FIELDS)
    else if root == "tuic-server" then Some(TUIC_SERVER_PATCH_FIELDS)
    else None
  }

  predicate NestedPathIsSupported(path: Path) {
    path != [] &&
    match NestedFields(path[0])
    case Some(fields) => |path| >= 2 && path[1] in fields
    case None => |path| == 1
  }

  predicate PatchEntry(e: DiffEntry) {
    e.target.Some? && e.path != [] && e.path[0] in PATCH_FIELDS && NestedPathIsSupported(e.path)
  }

  predicate ReloadEntry(e: DiffEntry) {
    && e.path != [] && e.path[0] in RELOAD_FIELDS
    && !IsDnsListen(e.path) && !(e.path[0] == "dns" && |e.path| == 1)
  }

  predicate AllPatch(changes: seq<DiffEntry>) {
    forall e | e in changes :: PatchEntry(e)
  }

  predicate AllReload(changes: seq<DiffEntry>) {
    forall e | e in changes :: ReloadEntry(e)
  }

  function Filtered(entries: Mapping, allowed: seq<string>): (r: Mapping) {
    map k | k in entries && k in allowed :: entries[k]
  }

  function FilterMapping(value: Value, allowed: seq<string>): (r: Result<Value, Error>) {
    if value.Map? then Ok(Map(Filtered(value.entries, allowed)))
    else Err(InvalidConfig("patchable nested config must be a mapping"))
  }

  function Roots(changes: seq<DiffEntry>): (r: set<string>) {
    set e | e in changes && e.path != [] :: e.path[0]
  }

  function PatchValue(root: string, value: Value): (r: Result<Value, Error>) {
    match NestedFields(root)
    case Some(fields) => FilterMapping(value, fields)
    case None => Ok(value)
  }

  /** The patch document grown root by root; `None` when a root is missing from the desired document. */
  function FillPatch(desired: Mapping, roots: seq<string>, document: Mapping): (r: Result<Option<Mapping>, Error>)
    decreases |roots|
  {
    if roots == [] then Ok(Some(document))
    else if roots[0] !in desired then Ok(None)
    else
      match PatchValue(roots[0], desired[roots[0]])
      case Err(error) => Err(error)
      case Ok(value) => FillPatch(desired, roots[1..], document[roots[0] := value])
  }

  predicate LacksEnable(document: Mapping, root: string) {
    root in document && !(exists flag :: Child(Some(document[root]), "enable") == Some(Bool(flag)))
  }

  function BuildPatch(desired: Mapping, changes: seq<DiffEntry>, decode: Decoder): (r: Result<ConfigChange, Error>) {
    match FillPatch(desired, Sorted(Roots(changes)), map[])
    case Err(error) => Err(error)
    case Ok(None) => Ok(Switch)
    case Ok(Some(document)) =>
      if LacksEnable(document, "tun") || LacksEnable(document, "tuic-server") then Ok(Switch)
      else
        match decode(document)
        case None => Ok(Switch)
        case Some(serialized) => Ok(Patch(document, Leaves(serialized)))
  }

  function ClassifyDocuments(current: Mapping, desired: Mapping, decode: Decoder): (r: Result<ConfigChange, Error>) {
    if DnsListen(current) != DnsListen(desired) then Ok(Switch)
    else
      var changes := Changes(current, desired);
      if changes == [] then Ok(Noop)
      else if AllPatch(changes) then BuildPatch(desired, changes, decode)
      else if AllReload(changes) then Ok(Reload)
      else Ok(Switch)
  }

  datatype Kind = MihomoKind | MeowKind | ClashRust | ChimeraClient | ClashPremium

  /** The fields of an instance specification a running process cannot adopt. */
  datatype ProcessSpec = ProcessSpec(
    kind: Kind, binaryPath: string, version: Option<string>, features: seq<string>, workingDir: string,
    startupTimeout: nat, health: string, restartPolicy: string, backoff: string)

  /** One side of a classification; `localIpc` is part of the specification but never of the comparison. */
  datatype View = View(source: Mapping, effective: Mapping, spec: ProcessSpec, localIpc: Option<bool>)

  predicate TouchesController(e: DiffEntry) {
    (e.path != [] && e.path[0] in CONTROLLER_FIELDS) || IsDnsListen(e.path)
  }

  function Classify(current: View, desired: View, decode: Decoder): (r: Result<ConfigChange, Error>) {
    if current.spec != desired.spec then Ok(Switch)
    else
      var sourceChanges := Changes(current.source, desired.source);
      if desired.spec.kind != MihomoKind then
        Ok(if sourceChanges == [] && Changes(current.effective, desired.effective) == [] then Noop else Switch)
      else if exists e | e in sourceChanges :: TouchesController(e) then Ok(Switch)
      else ClassifyDocuments(current.effective, desired.effective, decode)
  }

  // --------------------------------------------------------------- diff by root

  /** An entry of a whole-document diff sits under a key at which the documents differ. */
  lemma ChangeBelow(current: Mapping, desired: Mapping, e: DiffEntry)
    requires e in Changes(current, desired)
    ensures e.path != [] && Child(Some(Map(current)), e.path[0]) != Child(Some(Map(desired)), e.path[0])
    ensures var below := Diff(Child(Some(Map(current)), e.path[0]), Child(Some(Map(desired)), e.path[0]));
      HasEntry(below, e.path[1..], e.target)
  {
    var c, d := Some(Map(current)), Some(Map(desired));
    if KeysOf(c, d) != {} {
      EntryBelow(c, d, e);
      EmptyMeansEqual(Child(c, e.path[0]), Child(d, e.path[0]));
    }
  }

  /** A key is the root of some entry exactly when the two documents differ there. */
  lemma RootMoved(current: Mapping, desired: Mapping, k: string)
    ensures k in Roots(Changes(current, desired)) <==> Child(Some(Map(current)), k) != Child(Some(Map(desired)), k)
  {
    var c, d := Some(Map(current)), Some(Map(desired));
    if k in Roots(Changes(current, desired)) {
      var e :| e in Changes(current, desired) && e.path != [] && e.path[0] == k;
      ChangeBelow(current, desired, e);
    }
    if Child(c, k) != Child(d, k) {
      var below := DifferenceHasEntry(Child(c, k), Child(d, k));
      Lift(c, d, k, below);
      assert ([k] + below.path)[0] == k;
    }
  }

  /** An entry below a key, brought up to the whole. */
  lemma Lift(current: Option<Value>, desired: Option<Value>, k: string, below: DiffEntry)
    requires Descends(current, desired) && below in Diff(Child(current, k), Child(desired, k))
    ensures DiffEntry([k] + below.path, below.target) in Diff(current, desired)
  {
    assert k in KeysOf(current, desired);
    assert ([k] + below.path)[1..] == below.path;
    EntryBelow(current, desired, DiffEntry([k] + below.path, below.target));
  }

  lemma NoDeletionBelow(current: Option<Value>, desired: Option<Value>, k: string)
    requires Descends(current, desired) && NoDeletion(Diff(current, desired))
    ensures NoDeletion(Diff(Child(current, k), Child(desired, k)))
  {
    forall e | e in Diff(Child(current, k), Child(desired, k)) ensures e.target.Some? {
      Lift(current, desired, k, e);
    }
  }

  /** Without deletions every key of the current side survives. */
  lemma NoDeletionKeepsKeys(current: Option<Value>, desired: Option<Value>, k: string)
    requires Descends(current, desired) && NoDeletion(Diff(current, desired)) && k in EntriesOf(current)
    ensures k in EntriesOf(desired)
  {
    if k !in EntriesOf(desired) {
      var e := DifferenceHasEntry(Child(current, k), Child(desired, k));
      Lift(current, desired, k, e);
      EntryIsTrue(Child(current, k), Child(desired, k), e);
      NothingBelowNone(e.path);
    }
  }

  // --------------------------------------------------------------- merging back

  /** Merging a value onto another, as `Merge` does at each key. */
  function MergeValue(target: Option<Value>, patch: Value): (r: Value) {
    if IsMap(target) && patch.Map? then Map(Merge(target.value.entries, patch.entries)) else patch
  }

  lemma MergeAt(target: Mapping, patch: Mapping, k: string)
    ensures Child(Some(Map(Merge(target, patch))), k)
      == if k in patch then Some(MergeValue(Child(Some(Map(target)), k), patch[k])) else Child(Some(Map(target)), k)
  {
  }

  /** A value whose diff deletes nothing is restored by merging the desired value onto it. */
  lemma {:induction false} MergeRestores(current: Option<Value>, desired: Value)
    requires NoDeletion(Diff(current, Some(desired)))
    ensures MergeValue(current, desired) == desired
    decreases desired
  {
    if IsMap(current) && desired.Map? {
      var merged := Some(MergeValue(current, desired));
      forall k ensures Child(merged, k) == Child(Some(desired), k) {
        MergeAt(current.value.entries, desired.entries, k);
        if k in desired.entries {
          NoDeletionBelow(current, Some(desired), k);
          MergeRestores(Child(current, k), desired.entries[k]);
        } else if k in current.value.entries {
          NoDeletionKeepsKeys(current, Some(desired), k);
        }
      }
      SameChildrenSameMap(merged, Some(desired));
    }
  }

  /** It is enough to merge the keys that may have moved. */
  lemma MergeFiltered(current: Option<Value>, desired: Value, allowed: seq<string>)
    requires NoDeletion(Diff(current, Some(desired))) && desired.Map? && (current.None? || IsMap(current))
    requires forall k :: k !in allowed ==> Child(current, k) == Child(Some(desired), k)
    ensures MergeValue(current, Map(Filtered(desired.entries, allowed))) == desired
  {
    var patch := Filtered(desired.entries, allowed);
    var merged := Some(MergeValue(current, Map(patch)));
    forall k ensures Child(merged, k) == Child(Some(desired), k) {
      if IsMap(current) {
        MergeAt(current.value.entries, patch, k);
        if k in patch {
          NoDeletionBelow(current, Some(desired), k);
          MergeRestores(Child(current, k), desired.entries[k]);
        } else if k in current.value.entries {
          NoDeletionKeepsKeys(current, Some(desired), k);
        }
      } else {
        assert k !in allowed ==> Child(current, k) == Child(Some(desired), k);
      }
    }
    SameChildrenSameMap(merged, Some(desired));
  }

  // -------------------------------------------------------- the patch, as a map

  /** A root whose diff is all patch entries restricted to it: a whole value, or a mapping of supported fields. */
  lemma PatchableRoot(current: Mapping, desired: Mapping, k: string)
    requires AllPatch(Changes(current, desired)) && k in Roots(Changes(current, desired))
    ensures k in desired && k in PATCH_FIELDS
    ensures PatchValue(k, desired[k]).Ok?
    ensures MergeValue(Child(Some(Map(current)), k), PatchValue(k, desired[k]).value) == desired[k]
  {
    var C, D := Some(Map(current)), Some(Map(desired));
    var c, d := Child(C, k), Child(D, k);
    RootMoved(current, desired, k);
    forall e | e in Diff(c, d) ensures PatchEntry(DiffEntry([k] + e.path, e.target)) {
      Lift(C, D, k, e);
    }
    var e := DifferenceHasEntry(c, d);
    assert PatchEntry(DiffEntry([k] + e.path, e.target));
    assert ([k] + e.path)[0] == k && ([k] + e.path)[1..] == e.path;
    EntryIsTrue(c, d, e);
    match NestedFields(k)
    case None =>
      WholeRoot(c, d, e);
    case Some(fields) =>
      assert ([k] + e.path)[1] == e.path[0];
      NestedRoot(c, d, e, k, fields);
  }

  lemma WholeRoot(current: Option<Value>, desired: Option<Value>, e: DiffEntry)
    requires e in Diff(current, desired) && e.path == [] && e.target.Some?
    ensures desired.Some? && MergeValue(current, desired.value) == desired.value
  {
    EntryIsTrue(current, desired, e);
    if IsMap(current) && IsMap(desired) {
      if KeysOf(current, desired) != {} {
        EntryBelow(current, desired, e);
      }
    }
  }

  lemma SupportedField(k: string, field: string, path: Path, target: Option<Value>)
    requires NestedFields(k).Some?
    ensures PatchEntry(DiffEntry([k] + ([field] + path), target)) ==> field in NestedFields(k).value
  {
    assert ([k] + ([field] + path))[0] == k && ([k] + ([field] + path))[1] == field;
  }

  lemma NestedRoot(current: Option<Value>, desired: Option<Value>, e: DiffEntry, k: string, fields: seq<string>)
    requires e in Diff(current, desired) && e.path != [] && e.target.Some? && NestedFields(k) == Some(fields)
    requires forall other :: other in Diff(current, desired) ==> PatchEntry(DiffEntry([k] + other.path, other.target))
    ensures IsMap(desired)
    ensures MergeValue(current, Map(Filtered(desired.value.entries, fields))) == desired.value
  {
    EntryIsTrue(current, desired, e);
    assert Descends(current, desired);
    assert IsMap(desired) by {
      if !IsMap(desired) {
        assert Child(desired, e.path[0]) == None;
        NothingBelowNone(e.path[1..]);
      }
    }
    forall other | other in Diff(current, desired) ensures other.target.Some? {
      assert PatchEntry(DiffEntry([k] + other.path, other.target));
    }
    forall field | field !in fields ensures Child(current, field) == Child(desired, field) {
      if Child(current, field) != Child(desired, field) {
        var below := DifferenceHasEntry(Child(current, field), Child(desired, field));
        Lift(current, desired, field, below);
        SupportedField(k, field, below.path, below.target);
      }
    }
    MergeFiltered(current, desired.value, fields);
  }

  /** Every one of these roots is in the desired document and nests as it should. */
  predicate Buildable(desired: Mapping, roots: set<string>) {
    forall k | k in roots :: k in desired && PatchValue(k, desired[k]).Ok?
  }

  function RootValues(desired: Mapping, roots: set<string>): (r: Mapping)
    requires Buildable(desired, roots)
  {
    map k | k in roots :: PatchValue(k, desired[k]).value
  }

  function Members(roots: seq<string>): (r: set<string>) {
    set k | k in roots
  }

  lemma FirstMember(roots: seq<string>)
    requires roots != []
    ensures Members(roots) == Members(roots[1..]) + {roots[0]}
  {
    assert roots == [roots[0]] + roots[1..];
  }

  lemma OneRootMore(desired: Mapping, k: string, rest: set<string>, document: Mapping)
    requires Buildable(desired, rest + {k}) && Buildable(desired, rest)
    ensures document[k := PatchValue(k, desired[k]).value] + RootValues(desired, rest)
      == document + RootValues(desired, rest + {k})
  {
  }

  /** Then the document grown is the map of the roots to their values. */
  lemma {:induction false} FillPatchIsMap(desired: Mapping, roots: seq<string>, document: Mapping)
    requires Buildable(desired, Members(roots))
    ensures FillPatch(desired, roots, document) == Ok(Some(document + RootValues(desired, Members(roots))))
    decreases |roots|
  {
    if roots == [] {
      assert Members(roots) == {} && RootValues(desired, {}) == map[];
      assert document + map[] == document;
    } else {
      FirstMember(roots);
      OneRootMore(desired, roots[0], Members(roots[1..]), document);
      FillPatchIsMap(desired, roots[1..], document[roots[0] := PatchValue(roots[0], desired[roots[0]]).value]);
    }
  }

  lemma FillsWithRootValues(desired: Mapping, roots: set<string>)
    requires Buildable(desired, roots)
    ensures FillPatch(desired, Sorted(roots), map[]) == Ok(Some(RootValues(desired, roots)))
  {
    SortedMembers(roots);
    FillPatchIsMap(desired, Sorted(roots), map[]);
    assert map[] + RootValues(desired, roots) == RootValues(desired, roots);
  }

  /** Merging the values of all the roots that moved gives the desired document. */
  lemma RootsMergeBack(current: Mapping, desired: Mapping, roots: set<string>)
    requires Buildable(desired, roots)
    requires forall k :: k !in roots ==> Child(Some(Map(current)), k) == Child(Some(Map(desired)), k)
    requires forall k :: k in roots ==>
      MergeValue(Child(Some(Map(current)), k), PatchValue(k, desired[k]).value) == desired[k]
    ensures Merge(current, RootValues(desired, roots)) == desired
  {
    var merged := Some(Map(Merge(current, RootValues(desired, roots))));
    forall k ensures Child(merged, k) == Child(Some(Map(desired)), k) {
      MergeAt(current, RootValues(desired, roots), k);
    }
    SameChildrenSameMap(merged, Some(Map(desired)));
  }

  /**
   The patch preserves meaning. Whenever every change is patchable, the patch
   document is built without a missing root or a malformed nested value, and
   merging it into the current document yields exactly the desired one.
   */
  lemma PatchPreservesMeaning(current: Mapping, desired: Mapping)
    requires AllPatch(Changes(current, desired))
    ensures var roots := Roots(Changes(current, desired));
      && Buildable(desired, roots)
      && FillPatch(desired, Sorted(roots), map[]) == Ok(Some(RootValues(desired, roots)))
      && Merge(current, RootValues(desired, roots)) == desired
  {
    var roots := Roots(Changes(current, desired));
    RootsAreBuildable(current, desired, roots);
    FillsWithRootValues(desired, roots);
    RootsMergeBack(current, desired, roots);
  }

  lemma SortedMembers(roots: set<string>)
    ensures Members(Sorted(roots)) == roots
  {
  }

  lemma RootsAreBuildable(current: Mapping, desired: Mapping, roots: set<string>)
    requires AllPatch(Changes(current, desired)) && roots == Roots(Changes(current, desired))
    ensures Buildable(desired, roots)
    ensures forall k :: k !in roots ==> Child(Some(Map(current)), k) == Child(Some(Map(desired)), k)
    ensures forall k :: k in roots ==>
      MergeValue(Child(Some(Map(current)), k), PatchValue(k, desired[k]).value) == desired[k]
  {
    forall k
      ensures k in roots ==> k in desired && PatchValue(k, desired[k]).Ok?
      ensures k in roots ==> MergeValue(Child(Some(Map(current)), k), PatchValue(k, desired[k]).value) == desired[k]
      ensures k !in roots ==> Child(Some(Map(current)), k) == Child(Some(Map(desired)), k)
    {
      if k in roots {
        PatchableRoot(current, desired, k);
      } else {
        RootMoved(current, desired, k);
      }
    }
  }

  // -------------------------------------------------------------------- verdicts

  /** A patch verdict carries the roots' values, and needs every change patchable and the enables set. */
  lemma BuildPatchVerdict(current: Mapping, desired: Mapping, decode: Decoder)
    requires AllPatch(Changes(current, desired))
    ensures Buildable(desired, Roots(Changes(current, desired)))
    ensures var document := RootValues(desired, Roots(Changes(current, desired)));
      BuildPatch(desired, Changes(current, desired), decode)
      == Ok(if LacksEnable(document, "tun") || LacksEnable(document, "tuic-server") then Switch
            else if decode(document).None? then Switch
            else Patch(document, Leaves(decode(document).value)))
  {
    PatchPreservesMeaning(current, desired);
  }

  lemma PatchableVerdict(current: Mapping, desired: Mapping, decode: Decoder)
    requires AllPatch(Changes(current, desired)) && DnsListen(current) == DnsListen(desired)
    ensures ClassifyDocuments(current, desired, decode)
      == if current == desired then Ok(Noop) else BuildPatch(desired, Changes(current, desired), decode)
  {
    EmptyMeansEqual(Some(Map(current)), Some(Map(desired)));
  }

  /** Classification is total on canonical documents: the nested-shape and key errors cannot arise. */
  lemma ClassificationNeverFails(current: View, desired: View, decode: Decoder)
    ensures Classify(current, desired, decode).Ok?
  {
    DocumentsNeverFail(current.effective, desired.effective, decode);
  }

  lemma DocumentsNeverFail(current: Mapping, desired: Mapping, decode: Decoder)
    ensures ClassifyDocuments(current, desired, decode).Ok?
  {
    if AllPatch(Changes(current, desired)) {
      BuildPatchVerdict(current, desired, decode);
    }
  }

  lemma ControllerFieldsAreDenied(field: string)
    requires field in CONTROLLER_FIELDS
    ensures field !in PATCH_FIELDS && field !in RELOAD_FIELDS
  {
  }

  /** What any document verdict short of a switch rests on. */
  lemma DocumentVerdict(current: Mapping, desired: Mapping, decode: Decoder)
    requires ClassifyDocuments(current, desired, decode) != Ok(Switch)
    ensures DnsListen(current) == DnsListen(desired)
    ensures AllPatch(Changes(current, desired)) || AllReload(Changes(current, desired))
    ensures ClassifyDocuments(current, desired, decode) == Ok(Noop) ==> Changes(current, desired) == []
  {
    if AllPatch(Changes(current, desired)) {
      BuildPatchVerdict(current, desired, decode);
    }
  }

  /**
   Deny by default, for Mihomo: any verdict short of a switch means the two
   effective documents agree on `dns.listen` and on every root outside the two
   allow lists, the controller fields among them; a no-op, that they are equal.
   */
  lemma MihomoDeniesByDefault(current: View, desired: View, decode: Decoder)
    requires desired.spec.kind == MihomoKind && Classify(current, desired, decode) != Ok(Switch)
    ensures current.spec == desired.spec
    ensures DnsListen(current.effective) == DnsListen(desired.effective)
    ensures forall field :: field !in PATCH_FIELDS && field !in RELOAD_FIELDS ==>
      Child(Some(Map(current.effective)), field) == Child(Some(Map(desired.effective)), field)
    ensures forall field :: field in CONTROLLER_FIELDS ==> field !in PATCH_FIELDS && field !in RELOAD_FIELDS
    ensures Classify(current, desired, decode) == Ok(Noop) ==> current.effective == desired.effective
  {
    DocumentVerdict(current.effective, desired.effective, decode);
    EmptyMeansEqual(Some(Map(current.effective)), Some(Map(desired.effective)));
    forall field | field !in PATCH_FIELDS && field !in RELOAD_FIELDS
      ensures Child(Some(Map(current.effective)), field) == Child(Some(Map(desired.effective)), field)
    {
      UnlistedFieldAgrees(current.effective, desired.effective, field);
    }
    forall field | field in CONTROLLER_FIELDS ensures field !in PATCH_FIELDS && field !in RELOAD_FIELDS {
      ControllerFieldsAreDenied(field);
    }
  }

  /** For every other kind only a no-op or a switch occurs, and a no-op exactly when nothing moved. */
  lemma OtherKindsDenyByDefault(current: View, desired: View, decode: Decoder)
    requires desired.spec.kind != MihomoKind
    ensures Classify(current, desired, decode) == Ok(Noop) || Classify(current, desired, decode) == Ok(Switch)
    ensures Classify(current, desired, decode) == Ok(Noop) <==>
      current.spec == desired.spec && current.source == desired.source && current.effective == desired.effective
  {
    EmptyMeansEqual(Some(Map(current.source)), Some(Map(desired.source)));
    EmptyMeansEqual(Some(Map(current.effective)), Some(Map(desired.effective)));
  }

  lemma UnlistedFieldAgrees(current: Mapping, desired: Mapping, field: string)
    requires field !in PATCH_FIELDS && field !in RELOAD_FIELDS
    requires var changes := Changes(current, desired); AllPatch(changes) || AllReload(changes)
    ensures Child(Some(Map(current)), field) == Child(Some(Map(desired)), field)
  {
    RootMoved(current, desired, field);
  }

  // --------------------------------------------------------------- verification

  /** The read-back check: every expected leaf is present with its value. */
  predicate Verify(expected: seq<Leaf>, actual: Value) {
    forall leaf | leaf in expected :: ValueAt(Some(actual), leaf.path) == Some(leaf.value)
  }

  lemma {:induction false} LeafBelowKey(value: Value, keys: seq<string>, leaf: Leaf)
    requires value.Map? && forall k :: k in keys ==> k in value.entries
    requires leaf in LeavesOf(value, keys)
    ensures leaf.path != [] && leaf.path[0] in keys
    ensures Leaf(leaf.path[1..], leaf.value) in Leaves(value.entries[leaf.path[0]])
    decreases |keys|
  {
    var below := Leaves(value.entries[keys[0]]);
    var here := LeavesUnder([keys[0]], below);
    if leaf in here {
      var i :| 0 <= i < |here| && here[i] == leaf;
      assert leaf.path[1..] == below[i].path;
      assert below[i] in below;
    } else {
      LeafBelowKey(value, keys[1..], leaf);
    }
  }

  /** A value has each of its leaves at the leaf's path. */
  lemma {:induction false} LeafIsThere(value: Value, leaf: Leaf)
    requires leaf in Leaves(value)
    ensures ValueAt(Some(value), leaf.path) == Some(leaf.value)
    decreases value
  {
    if value.Map? && value.entries != map[] {
      LeafBelowKey(value, Sorted(value.entries.Keys), leaf);
      LeafIsThere(value.entries[leaf.path[0]], Leaf(leaf.path[1..], leaf.value));
    }
  }

  /** Filtering a mapping keeps its leaves, unless it empties a mapping that was not empty. */
  lemma FilteredLeafIsThere(value: Value, fields: seq<string>, leaf: Leaf)
    requires value.Map? && Filtered(value.entries, fields) != map[]
    requires leaf in Leaves(Map(Filtered(value.entries, fields)))
    ensures ValueAt(Some(value), leaf.path) == Some(leaf.value)
  {
    var filtered := Map(Filtered(value.entries, fields));
    LeafBelowKey(filtered, Sorted(filtered.entries.Keys), leaf);
    LeafIsThere(value.entries[leaf.path[0]], Leaf(leaf.path[1..], leaf.value));
  }

  lemma PatchLeafIsDesired(desired: Mapping, roots: set<string>, leaf: Leaf)
    requires Buildable(desired, roots) && roots != {}
    requires !LacksEnable(RootValues(desired, roots), "tun") && !LacksEnable(RootValues(desired, roots), "tuic-server")
    requires leaf in Leaves(Map(RootValues(desired, roots)))
    ensures ValueAt(Some(Map(desired)), leaf.path) == Some(leaf.value)
  {
    var document := RootValues(desired, roots);
    assert document.Keys == roots;
    LeafBelowKey(Map(document), Sorted(document.Keys), leaf);
    var k, below := leaf.path[0], Leaf(leaf.path[1..], leaf.value);
    match NestedFields(k)
    case None => LeafIsThere(desired[k], below);
    case Some(fields) =>
      assert Child(Some(document[k]), "enable").Some?;
      FilteredLeafIsThere(desired[k], fields, below);
  }

  /**
   The read-back of a patch that took effect is accepted: when the decoded patch
   serializes to leaves of the document it was built from, verification against
   the merged document, which is the desired one, succeeds.
   */
  lemma VerificationAcceptsTheMergedDocument(current: Mapping, desired: Mapping, decode: Decoder)
    requires ClassifyDocuments(current, desired, decode).Ok? && ClassifyDocuments(current, desired, decode).value.Patch?
    requires var document := ClassifyDocuments(current, desired, decode).value.document;
      decode(document).Some? && forall leaf :: leaf in Leaves(decode(document).value) ==> leaf in Leaves(Map(document))
    ensures var patch := ClassifyDocuments(current, desired, decode).value;
      Merge(current, patch.document) == desired && Verify(patch.expected, Map(Merge(current, patch.document)))
  {
    var patch := ClassifyDocuments(current, desired, decode).value;
    var roots := Roots(Changes(current, desired));
    PatchPreservesMeaning(current, desired);
    BuildPatchVerdict(current, desired, decode);
    assert patch.document == RootValues(desired, roots);
    assert roots != {} by {
      var e := Changes(current, desired)[0];
      assert PatchEntry(e) && e.path[0] in roots;
    }
    forall leaf | leaf in patch.expected ensures ValueAt(Some(Map(desired)), leaf.path) == Some(leaf.value) {
      PatchLeafIsDesired(desired, roots, leaf);
    }
  }

  lemma {:induction false} LeafLifts(value: Value, keys: seq<string>, k: string, leaf: Leaf)
    requires value.Map? && (forall key :: key in keys ==> key in value.entries) && k in keys
    requires leaf in Leaves(value.entries[k])
    ensures Leaf([k] + leaf.path, leaf.value) in LeavesOf(value, keys)
    decreases |keys|
  {
    if keys[0] == k {
      var below := Leaves(value.entries[k]);
      var i :| 0 <= i < |below| && below[i] == leaf;
      assert LeavesUnder([k], below)[i] == Leaf([k] + leaf.path, leaf.value);
    } else {
      LeafLifts(value, keys[1..], k, leaf);
    }
  }

  lemma {:induction false} SomeLeaf(value: Value) returns (leaf: Leaf)
    ensures leaf in Leaves(value)
    decreases value
  {
    if value.Map? && value.entries != map[] {
      var k :| k in value.entries;
      var below := SomeLeaf(value.entries[k]);
      LeafLifts(value, Sorted(value.entries.Keys), k, below);
      leaf := Leaf([k] + below.path, below.value);
    } else {
      leaf := Leaf([], value);
    }
  }

  ghost predicate HasLeaves(target: Option<Value>, patch: Value) {
    forall leaf :: leaf in Leaves(patch) ==> ValueAt(target, leaf.path) == Some(leaf.value)
  }

  /** The leaves below a key are there too. */
  lemma HasLeavesBelow(target: Option<Value>, patch: Value, k: string)
    requires patch.Map? && k in patch.entries && HasLeaves(target, patch)
    ensures HasLeaves(Child(target, k), patch.entries[k]) && Child(target, k).Some?
  {
    forall leaf | leaf in Leaves(patch.entries[k]) ensures ValueAt(Child(target, k), leaf.path) == Some(leaf.value) {
      LeafLifts(patch, Sorted(patch.entries.Keys), k, leaf);
      assert ([k] + leaf.path)[1..] == leaf.path;
      assert ValueAt(target, [k] + leaf.path) == ValueAt(Child(target, k), leaf.path);
    }
    var leaf := SomeLeaf(patch.entries[k]);
    NothingBelowNone(leaf.path);
  }

  /** Merging a patch all of whose leaves are there already changes nothing. */
  lemma {:induction false} MergeIsIdle(target: Value, patch: Value)
    requires HasLeaves(Some(target), patch)
    ensures MergeValue(Some(target), patch) == target
    decreases patch
  {
    if patch.Map? && patch.entries != map[] {
      var some :| some in patch.entries;
      HasLeavesBelow(Some(target), patch, some);
      var merged := MergeValue(Some(target), patch);
      forall k ensures Child(Some(merged), k) == Child(Some(target), k) {
        MergeAt(target.entries, patch.entries, k);
        if k in patch.entries {
          HasLeavesBelow(Some(target), patch, k);
          MergeIsIdle(target.entries[k], patch.entries[k]);
        }
      }
      SameChildrenSameMap(Some(merged), Some(target));
    } else {
      assert Leaf([], patch) in Leaves(patch);
      assert target == patch;
      if patch.Map? {
        assert Merge(target.entries, patch.entries) == target.entries;
      }
    }
  }

  /** An empty mapping of the patch meets one that is not empty, and leaves it as it is. */
  predicate EmptyOverFull(target: Option<Value>, patch: Value)
    decreases patch
  {
    && patch.Map?
    && if patch.entries == map[] then IsMap(target) && target != Some(patch)
       else exists k :: k in patch.entries && EmptyOverFull(Child(target, k), patch.entries[k])
  }

  /** The leaves of a mapping are there exactly when those below each of its keys are. */
  lemma HasLeavesByKey(target: Option<Value>, patch: Value)
    requires patch.Map? && patch.entries != map[]
    ensures HasLeaves(target, patch)
      <==> forall k :: k in patch.entries ==> HasLeaves(Child(target, k), patch.entries[k])
  {
    if HasLeaves(target, patch) {
      forall k | k in patch.entries ensures HasLeaves(Child(target, k), patch.entries[k]) {
        HasLeavesBelow(target, patch, k);
      }
    } else {
      var leaf :| leaf in Leaves(patch) && ValueAt(target, leaf.path) != Some(leaf.value);
      LeafBelowKey(patch, Sorted(patch.entries.Keys), leaf);
      assert !HasLeaves(Child(target, leaf.path[0]), patch.entries[leaf.path[0]]);
    }
  }

  lemma MergedChild(target: Option<Value>, patch: Value, k: string)
    requires patch.Map? && k in patch.entries
    ensures Child(Some(MergeValue(target, patch)), k) == Some(MergeValue(Child(target, k), patch.entries[k]))
  {
    if IsMap(target) {
      MergeAt(target.value.entries, patch.entries, k);
    }
  }

  /** A patch that was merged in has all of its leaves there, unless an empty mapping met one that was not. */
  lemma {:induction false} AppliedHasLeaves(target: Option<Value>, patch: Value)
    ensures HasLeaves(Some(MergeValue(target, patch)), patch) <==> !EmptyOverFull(target, patch)
    decreases patch
  {
    var merged := Some(MergeValue(target, patch));
    if patch.Map? && patch.entries != map[] {
      HasLeavesByKey(merged, patch);
      forall k | k in patch.entries
        ensures HasLeaves(Child(merged, k), patch.entries[k]) <==> !EmptyOverFull(Child(target, k), patch.entries[k])
      {
        MergedChild(target, patch, k);
        AppliedHasLeaves(Child(target, k), patch.entries[k]);
      }
    } else {
      WholeIsOneLeaf(merged, patch);
      if patch.Map? && IsMap(target) {
        assert Merge(target.value.entries, patch.entries) == target.value.entries;
      }
    }
  }

  lemma WholeIsOneLeaf(target: Option<Value>, patch: Value)
    requires patch.Map? ==> patch.entries == map[]
    ensures HasLeaves(target, patch) <==> target == Some(patch)
  {
    assert Leaf([], patch) in Leaves(patch);
  }

  /** What a patch amounts to: its leaves are those of the decoded document, and its effect is the desired one. */
  lemma PatchOf(current: Mapping, desired: Mapping, decode: Decoder)
    requires ClassifyDocuments(current, desired, decode).Ok? && ClassifyDocuments(current, desired, decode).value.Patch?
    ensures var patch := ClassifyDocuments(current, desired, decode).value;
      && decode(patch.document).Some? && patch.expected == Leaves(decode(patch.document).value)
      && Merge(current, patch.document) == desired && current != desired
  {
    BuildPatchVerdict(current, desired, decode);
    PatchPreservesMeaning(current, desired);
    EmptyMeansEqual(Some(Map(current)), Some(Map(desired)));
  }

  /**
   What the read-back decides, whatever the decoder makes of the patch and
   whatever the core runs: a document is accepted only if the decoded patch has
   nothing left to change in it; and once the core has merged the decoded patch in,
   its document is accepted if and only if no empty mapping met one that was not.
   */
  lemma VerificationIsExact(current: Mapping, desired: Mapping, decode: Decoder, actual: Value)
    requires ClassifyDocuments(current, desired, decode).Ok? && ClassifyDocuments(current, desired, decode).value.Patch?
    ensures var patch := ClassifyDocuments(current, desired, decode).value;
      && decode(patch.document).Some?
      && var decoded := decode(patch.document).value;
         && (Verify(patch.expected, actual) ==> MergeValue(Some(actual), decoded) == actual)
         && (Verify(patch.expected, MergeValue(Some(actual), decoded)) <==> !EmptyOverFull(Some(actual), decoded))
  {
    var patch := ClassifyDocuments(current, desired, decode).value;
    PatchOf(current, desired, decode);
    LeavesAreExact(actual, decode(patch.document).value, patch.expected);
  }

  lemma LeavesAreExact(actual: Value, decoded: Value, expected: seq<Leaf>)
    requires expected == Leaves(decoded)
    ensures Verify(expected, actual) ==> MergeValue(Some(actual), decoded) == actual
    ensures Verify(expected, MergeValue(Some(actual), decoded)) <==> !EmptyOverFull(Some(actual), decoded)
  {
    AppliedHasLeaves(Some(actual), decoded);
    if Verify(expected, actual) {
      assert HasLeaves(Some(actual), decoded);
      MergeIsIdle(actual, decoded);
    }
  }

  /** A document that has every leaf of a patch already is the patched one. */
  lemma VerifiedIsIdle(current: Mapping, desired: Mapping, document: Mapping, expected: seq<Leaf>)
    requires Merge(current, document) == desired && Verify(expected, Map(current))
    requires forall leaf :: leaf in Leaves(Map(document)) ==> leaf in expected
    ensures current == desired
  {
    assert HasLeaves(Some(Map(current)), Map(document));
    MergeIsIdle(Map(current), Map(document));
  }

  /**
   And a patch that did not take effect is noticed: when the decoded patch
   serializes to every leaf of the document it was built from, verification
   against the document as it was before fails.
   */
  lemma VerificationRejectsTheUnpatchedDocument(current: Mapping, desired: Mapping, decode: Decoder)
    requires ClassifyDocuments(current, desired, decode).Ok? && ClassifyDocuments(current, desired, decode).value.Patch?
    requires var document := ClassifyDocuments(current, desired, decode).value.document;
      decode(document).Some? && forall leaf :: leaf in Leaves(Map(document)) ==> leaf in Leaves(decode(document).value)
    ensures !Verify(ClassifyDocuments(current, desired, decode).value.expected, Map(current))
  {
    var patch := ClassifyDocuments(current, desired, decode).value;
    PatchOf(current, desired, decode);
    if Verify(patch.expected, Map(current)) {
      VerifiedIsIdle(current, desired, patch.document, patch.expected);
    }
  }

  // ------------------------------------------------------------- the loops as run

  method FilterNested(value: Value, allowed: seq<string>) returns (result: Result<Value, Error>)
    ensures result == FilterMapping(value, allowed)
  {
    if !value.Map? {
      return Err(InvalidConfig("patchable nested config must be a mapping"));
    }
    var filtered: Mapping := map[];
    var rest := Sorted(value.entries.Keys);
    while rest != []
      invariant forall k :: k in rest ==> k in value.entries
      invariant forall k :: k in value.entries && k in allowed ==> k in rest || k in filtered
      invariant forall k :: k in filtered ==> k in value.entries && k in allowed && filtered[k] == value.entries[k]
      decreases |rest|
    {
      var key := rest[0];
      if key in allowed {
        filtered := filtered[key := value.entries[key]];
      }
      rest := rest[1..];
    }
    FilteredWhole(value.entries, allowed, filtered);
    return Ok(Map(filtered));
  }

  lemma FilteredWhole(entries: Mapping, allowed: seq<string>, filtered: Mapping)
    requires forall k :: k in entries && k in allowed ==> k in filtered
    requires forall k :: k in filtered ==> k in entries && k in allowed && filtered[k] == entries[k]
    ensures filtered == Filtered(entries, allowed)
  {
  }

  method AssemblePatch(desired: Mapping, changes: seq<DiffEntry>, decode: Decoder)
    returns (result: Result<ConfigChange, Error>)
    ensures result == BuildPatch(desired, changes, decode)
  {
    var document: Mapping := map[];
    var rest := Sorted(Roots(changes));
    while rest != []
      invariant FillPatch(desired, rest, document) == FillPatch(desired, Sorted(Roots(changes)), map[])
      decreases |rest|
    {
      var root := rest[0];
      if root !in desired {
        return Ok(Switch);
      }
      var value: Result<Value, Error> := Ok(desired[root]);
      if root == "tun" {
        value := FilterNested(desired[root], TUN_PATCH_FIELDS);
      } else if root == "tuic-server" {
        value := FilterNested(desired[root], TUIC_SERVER_PATCH_FIELDS);
      }
      if value.Err? {
        return Err(value.error);
      }
      document := document[root := value.value];
      rest := rest[1..];
    }
    if LacksEnable(document, "tun") || LacksEnable(document, "tuic-server") {
      return Ok(Switch);
    }
    var decoded := decode(document);
    if decoded.None? {
      return Ok(Switch);
    }
    var recorder := new LeafRecorder();
    recorder.CollectLeaves(decoded.value);
    LeavesUnderNothing(Leaves(decoded.value));
    return Ok(Patch(document, recorder.leaves));
  }

  lemma LeavesUnderNothing(leaves: seq<Leaf>)
    ensures [] + LeavesUnder([], leaves) == leaves
  {
    forall i | 0 <= i < |leaves| ensures LeavesUnder([], leaves)[i] == leaves[i] {
      assert [] + leaves[i].path == leaves[i].path;
    }
  }
}
