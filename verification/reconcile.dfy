/** The run: `terraform init`, then, for every registry entry whose kind has a
    local config file, enumeration followed by one `terraform import` per
    listed object. Terraform itself is an exit-code oracle. */
module Reconcile {
  import opened Options
  import opened Commands
  import opened Descriptors
  import opened Pagination

  /** The exit code of the n-th terraform invocation of a run (init is
      invocation 0), given its argument vector. Numbering the invocations
      lets the oracle answer differently for a repeated command, as a real
      state file would. */
  type Runner = (nat, seq<string>) -> int

  /** The command-line options that reach the model. */
  datatype Args = Args(backendConfig: Option<string>, noColor: bool)

  /** One import attempt: what was imported and how terraform exited. */
  datatype Outcome = Outcome(address: string, providerId: string, exitCode: int) {
    predicate Imported() {
      Succeeded(exitCode)
    }
  }

  /** The work done for one resource kind: the keyword arguments of each
      listing call, and the import attempts in order. */
  datatype Sync = Sync(objectType: string, requests: seq<Kwargs>, outcomes: seq<Outcome>)

  /** The whole run: the init command, its exit code, and the kinds synced. */
  datatype Report = Report(initCommand: seq<string>, initExit: int, syncs: seq<Sync>)

  /** `[f for f in names if f.startswith(prefix)]`, in directory order. */
  function Matching(names: seq<string>, prefix: string): (ms: seq<string>)
    ensures |ms| <= |names|
    ensures forall f :: f in ms <==> f in names && prefix <= f
  {
    if names == [] then []
    else (if prefix <= names[0] then [names[0]] else []) + Matching(names[1..], prefix)
  }

  /** A kind is reconciled only if the list of directory entries starting
      with it is non-empty, that is, if some file name starts with it. */
  function Gated(d: Descriptor, names: seq<string>): (ok: bool)
    ensures ok <==> exists i :: 0 <= i < |names| && d.objectType <= names[i]
  {
    var ms := Matching(names, d.objectType);
    if ms != [] then
      assert ms[0] in ms;
      true
    else
      assert forall i :: 0 <= i < |names| ==> names[i] in names;
      false
  }

  /** The attribute tuple of every collected item, in order. */
  function Objects(d: Descriptor, items: seq<Item>): (objs: seq<seq<Option<string>>>)
    ensures |objs| == |items|
    ensures forall i :: 0 <= i < |items| ==> objs[i] == Extract(d.attributeList, items[i])
  {
    seq(|items|, i requires 0 <= i < |items| => Extract(d.attributeList, items[i]))
  }

  /** The import of one object as terraform invocation `n`. */
  function Attempt(d: Descriptor, obj: seq<Option<string>>, noColor: bool, tf: Runner, n: nat): (o: Outcome)
    requires WellFormed(d) && |obj| == |d.attributeList|
    ensures o.address == Address(d, obj) && o.providerId == ProviderId(d, obj)
    ensures o.exitCode == tf(n, ImportCommand(noColor, o.address, o.providerId))
  {
    var address := Address(d, obj);
    var providerId := ProviderId(d, obj);
    Outcome(address, providerId, tf(n, ImportCommand(noColor, address, providerId)))
  }

  /** One import per object, in order, numbered from invocation `n`; a failed
      import does not stop the ones after it. */
  function Reconcile(d: Descriptor, objs: seq<seq<Option<string>>>, noColor: bool, tf: Runner, n: nat): (outs: seq<Outcome>)
    requires WellFormed(d)
    requires forall i :: 0 <= i < |objs| ==> |objs[i]| == |d.attributeList|
    ensures |outs| == |objs|
    ensures forall i :: 0 <= i < |objs| ==> outs[i] == Attempt(d, objs[i], noColor, tf, n + i)
  {
    if objs == [] then []
    else
      var rest := Reconcile(d, objs[1..], noColor, tf, n + 1);
      [Attempt(d, objs[0], noColor, tf, n)] + rest
  }

  /** The (address, provider ID) pairs the run logs as failed imports, in
      order: one import logs its pair exactly when it did not succeed, and
      ErrorLogAppend gives how the log of a longer run is put together. */
  function ErrorLog(outs: seq<Outcome>): (log: seq<(string, string)>)
    ensures |log| <= |outs|
    ensures |outs| == 1 ==> (log == [(outs[0].address, outs[0].providerId)] <==> outs[0].exitCode != 0)
    ensures |outs| == 1 ==> (log == [] <==> outs[0].exitCode == 0)
  {
    if outs == [] then []
    else (if outs[0].Imported() then [] else [(outs[0].address, outs[0].providerId)]) + ErrorLog(outs[1..])
  }

  /** An error is logged for an address and ID exactly when an import of
      them returned a non-zero exit code. */
  lemma {:induction false} ErrorLoggedIffFailed(outs: seq<Outcome>, address: string, providerId: string)
    ensures (address, providerId) in ErrorLog(outs) <==>
      exists i :: 0 <= i < |outs| && outs[i].exitCode != 0 && outs[i].address == address && outs[i].providerId == providerId
  {
    if outs != [] {
      ErrorLoggedIffFailed(outs[1..], address, providerId);
      if (address, providerId) in ErrorLog(outs[1..]) {
        var i :| 0 <= i < |outs[1..]| && outs[1..][i].exitCode != 0 && outs[1..][i].address == address && outs[1..][i].providerId == providerId;
        assert outs[i + 1] == outs[1..][i];
      }
      if exists i :: 0 <= i < |outs| && outs[i].exitCode != 0 && outs[i].address == address && outs[i].providerId == providerId {
        var i :| 0 <= i < |outs| && outs[i].exitCode != 0 && outs[i].address == address && outs[i].providerId == providerId;
        if i > 0 {
          assert outs[1..][i - 1] == outs[i];
        }
      }
    }
  }

  /** The log of two runs of imports is the log of the first, then that of
      the second. */
  lemma {:induction false} ErrorLogAppend(a: seq<Outcome>, b: seq<Outcome>)
    ensures ErrorLog(a + b) == ErrorLog(a) + ErrorLog(b)
  {
    if a == [] {
      assert a + b == b;
    } else {
      assert (a + b)[0] == a[0] && (a + b)[1..] == a[1..] + b;
      ErrorLogAppend(a[1..], b);
    }
  }

  /** Every failure is logged once: the log has one entry per failed import. */
  lemma {:induction false} ErrorLogCountsFailures(outs: seq<Outcome>)
    ensures |ErrorLog(outs)| == |outs| - |Successes(outs)|
  {
    if outs != [] {
      ErrorLogCountsFailures(outs[1..]);
    }
  }

  /** The outcomes whose import succeeded. */
  function Successes(outs: seq<Outcome>): seq<Outcome> {
    if outs == [] then []
    else (if outs[0].Imported() then [outs[0]] else []) + Successes(outs[1..])
  }

  /** Enumerate one kind and import everything listed. */
  function SyncOne(d: Descriptor, script: seq<Response>, noColor: bool, tf: Runner, n: nat): (s: Sync)
    requires WellFormed(d) && Answerable(d, script)
    ensures s.objectType == d.objectType
    ensures |s.requests| == |Fetched(d, script)|
    ensures |s.outcomes| == |Concat(d, Fetched(d, script))|
  {
    var items := Concat(d, Fetched(d, script));
    Sync(d.objectType, Requests(d, script), Reconcile(d, Objects(d, items), noColor, tf, n))
  }

  /** The listing calls of one kind are the reference chain of its script:
      the descriptor's kwargs first, then each with the previous token. */
  lemma SyncOneRequests(d: Descriptor, script: seq<Response>, noColor: bool, tf: Runner, n: nat)
    requires WellFormed(d) && Answerable(d, script)
    ensures SyncOne(d, script, noColor, tf, n).requests == Requests(d, script)
  {
  }

  /** Item i of the collected pages is imported, as invocation n + i, under
      the address and ID of its extracted tuple. */
  lemma SyncOneImportsEachItem(d: Descriptor, script: seq<Response>, noColor: bool, tf: Runner, n: nat, i: nat)
    requires WellFormed(d) && Answerable(d, script)
    requires i < |Concat(d, Fetched(d, script))|
    ensures SyncOne(d, script, noColor, tf, n).outcomes[i]
         == Attempt(d, Extract(d.attributeList, Concat(d, Fetched(d, script))[i]), noColor, tf, n + i)
  {
  }

  /** Each entry is well formed and each gated entry's script ends pagination. */
  predicate ScriptsFit(ds: seq<Descriptor>, scripts: seq<seq<Response>>, names: seq<string>)
    decreases |ds|
  {
    && |scripts| == |ds|
    && (ds != [] ==>
      && WellFormed(ds[0])
      && (Gated(ds[0], names) ==> Answerable(ds[0], scripts[0]))
      && ScriptsFit(ds[1..], scripts[1..], names))
  }

  /** The entry-by-entry statement of ScriptsFit. */
  lemma {:induction false} ScriptsFitEach(ds: seq<Descriptor>, scripts: seq<seq<Response>>, names: seq<string>)
    requires |scripts| == |ds|
    requires forall i :: 0 <= i < |ds| ==> WellFormed(ds[i]) && (Gated(ds[i], names) ==> Answerable(ds[i], scripts[i]))
    ensures ScriptsFit(ds, scripts, names)
    decreases |ds|
  {
    if ds != [] {
      assert forall i :: 0 <= i < |ds| - 1 ==> ds[1..][i] == ds[i + 1] && scripts[1..][i] == scripts[i + 1];
      ScriptsFitEach(ds[1..], scripts[1..], names);
    }
  }

  /** What ScriptsFit says about entry i. */
  lemma {:induction false} ScriptsFitAt(ds: seq<Descriptor>, scripts: seq<seq<Response>>, names: seq<string>, i: nat)
    requires ScriptsFit(ds, scripts, names) && i < |ds|
    ensures WellFormed(ds[i]) && (Gated(ds[i], names) ==> Answerable(ds[i], scripts[i]))
    decreases i
  {
    if i > 0 {
      ScriptsFitAt(ds[1..], scripts[1..], names, i - 1);
      assert ds[1..][i - 1] == ds[i] && scripts[1..][i - 1] == scripts[i];
    }
  }

  /** The kinds, in registry order, that some file name enables. */
  function GatedTypes(ds: seq<Descriptor>, names: seq<string>): seq<string> {
    if ds == [] then []
    else (if Gated(ds[0], names) then [ds[0].objectType] else []) + GatedTypes(ds[1..], names)
  }

  /** The kind of each sync, in order. */
  function Types(syncs: seq<Sync>): seq<string> {
    seq(|syncs|, k requires 0 <= k < |syncs| => syncs[k].objectType)
  }

  /** The kinds of a sync followed by more syncs. */
  lemma TypesCons(s: Sync, tail: seq<Sync>)
    ensures Types([s] + tail) == [s.objectType] + Types(tail)
  {
  }

  /** All import attempts of a run of syncs, in order. */
  function Attempts(syncs: seq<Sync>): seq<Outcome> {
    if syncs == [] then [] else syncs[0].outcomes + Attempts(syncs[1..])
  }

  /** Process the entries in order, each gated one synced, the terraform
      invocations numbered on from `n`. */
  function SyncAll(ds: seq<Descriptor>, scripts: seq<seq<Response>>, names: seq<string>, noColor: bool, tf: Runner, n: nat): (syncs: seq<Sync>)
    requires ScriptsFit(ds, scripts, names)
    ensures Types(syncs) == GatedTypes(ds, names)
    ensures Numbered(Attempts(syncs), noColor, tf, n)
    decreases |ds|
  {
    if ds == [] then []
    else
      if Gated(ds[0], names) then
        var s := SyncOne(ds[0], scripts[0], noColor, tf, n);
        var tail := SyncAll(ds[1..], scripts[1..], names, noColor, tf, n + |s.outcomes|);
        SyncOneNumbered(ds[0], scripts[0], noColor, tf, n);
        SyncCons(s, tail, noColor, tf, n);
        [s] + tail
      else SyncAll(ds[1..], scripts[1..], names, noColor, tf, n)
  }

  /** The outcomes are terraform invocations n, n + 1, ... in order, each
      run with the import command of its own address and ID. */
  predicate Numbered(outs: seq<Outcome>, noColor: bool, tf: Runner, n: nat) {
    forall k :: 0 <= k < |outs| ==>
      outs[k].exitCode == tf(n + k, ImportCommand(noColor, outs[k].address, outs[k].providerId))
  }

  /** Numbering carries across a concatenation. */
  lemma NumberedAppend(a: seq<Outcome>, b: seq<Outcome>, noColor: bool, tf: Runner, n: nat)
    requires Numbered(a, noColor, tf, n) && Numbered(b, noColor, tf, n + |a|)
    ensures Numbered(a + b, noColor, tf, n)
  {
  }

  /** Putting a sync numbered from `n` in front of syncs numbered on after
      it keeps the kinds in order and the numbering contiguous. */
  lemma SyncCons(s: Sync, tail: seq<Sync>, noColor: bool, tf: Runner, n: nat)
    requires Numbered(s.outcomes, noColor, tf, n) && Numbered(Attempts(tail), noColor, tf, n + |s.outcomes|)
    ensures Types([s] + tail) == [s.objectType] + Types(tail)
    ensures Numbered(Attempts([s] + tail), noColor, tf, n)
  {
    TypesCons(s, tail);
    AttemptsCons(s, tail);
    NumberedAppend(s.outcomes, Attempts(tail), noColor, tf, n);
  }

  /** The attempts of a sync followed by more syncs. */
  lemma AttemptsCons(s: Sync, tail: seq<Sync>)
    ensures Attempts([s] + tail) == s.outcomes + Attempts(tail)
  {
  }

  /** The imports of one kind are numbered on from `n`. */
  lemma SyncOneNumbered(d: Descriptor, script: seq<Response>, noColor: bool, tf: Runner, n: nat)
    requires WellFormed(d) && Answerable(d, script)
    ensures Numbered(SyncOne(d, script, noColor, tf, n).outcomes, noColor, tf, n)
  {
  }

  /** The syncs of a registry are those of its first entry, when gated,
      followed by those of the rest. */
  lemma SyncAllStep(ds: seq<Descriptor>, scripts: seq<seq<Response>>, names: seq<string>, noColor: bool, tf: Runner, n: nat)
      returns (first: nat, m: nat)
    requires ScriptsFit(ds, scripts, names) && ds != []
    ensures first == (if Gated(ds[0], names) then 1 else 0)
    ensures Gated(ds[0], names) ==> WellFormed(ds[0]) && Answerable(ds[0], scripts[0])
    ensures var syncs := SyncAll(ds, scripts, names, noColor, tf, n);
      var tail := SyncAll(ds[1..], scripts[1..], names, noColor, tf, m);
      && |syncs| == first + |tail|
      && (Gated(ds[0], names) ==> syncs[0] == SyncOne(ds[0], scripts[0], noColor, tf, n))
      && forall j :: 0 <= j < |tail| ==> syncs[first + j] == tail[j]
  {
    first := if Gated(ds[0], names) then 1 else 0;
    m := if Gated(ds[0], names) then n + |SyncOne(ds[0], scripts[0], noColor, tf, n).outcomes| else n;
  }

  /** Every sync belongs to a gated entry: it is exactly that entry's
      enumeration of its own script and import of everything it listed. */
  lemma {:induction false} SyncAllOnlyGated(ds: seq<Descriptor>, scripts: seq<seq<Response>>, names: seq<string>, noColor: bool, tf: Runner, n: nat, k: nat)
    requires ScriptsFit(ds, scripts, names)
    requires k < |SyncAll(ds, scripts, names, noColor, tf, n)|
    ensures var syncs := SyncAll(ds, scripts, names, noColor, tf, n);
      exists i, m :: 0 <= i < |ds| && Gated(ds[i], names) && WellFormed(ds[i]) && Answerable(ds[i], scripts[i])
        && syncs[k] == SyncOne(ds[i], scripts[i], noColor, tf, m)
    decreases |ds|
  {
    var first, m := SyncAllStep(ds, scripts, names, noColor, tf, n);
    var syncs := SyncAll(ds, scripts, names, noColor, tf, n);
    if k < first {
      assert syncs[k] == SyncOne(ds[0], scripts[0], noColor, tf, n);
    } else {
      var tail := SyncAll(ds[1..], scripts[1..], names, noColor, tf, m);
      SyncAllOnlyGated(ds[1..], scripts[1..], names, noColor, tf, m, k - first);
      var j, m' :| 0 <= j < |ds[1..]| && Gated(ds[1..][j], names) && WellFormed(ds[1..][j]) && Answerable(ds[1..][j], scripts[1..][j])
        && tail[k - first] == SyncOne(ds[1..][j], scripts[1..][j], noColor, tf, m');
      assert ds[1..][j] == ds[j + 1] && scripts[1..][j] == scripts[j + 1];
      assert syncs[k] == tail[k - first];
    }
  }

  /** No two entries of a registry share a kind. */
  predicate DistinctKinds(ds: seq<Descriptor>) {
    forall a, b :: 0 <= a < b < |ds| ==> ds[a].objectType != ds[b].objectType
  }

  /** Every gated entry of a registry with distinct kinds is synced: some
      sync is exactly that entry's enumeration of its own script and import
      of everything it listed. */
  lemma SyncAllHasEach(ds: seq<Descriptor>, scripts: seq<seq<Response>>, names: seq<string>, noColor: bool, tf: Runner, n: nat, i: nat)
    requires ScriptsFit(ds, scripts, names) && DistinctKinds(ds)
    requires i < |ds| && Gated(ds[i], names)
    ensures WellFormed(ds[i]) && Answerable(ds[i], scripts[i])
    ensures var syncs := SyncAll(ds, scripts, names, noColor, tf, n);
      exists k, m :: 0 <= k < |syncs| && syncs[k] == SyncOne(ds[i], scripts[i], noColor, tf, m)
  {
    ScriptsFitAt(ds, scripts, names, i);
    var syncs := SyncAll(ds, scripts, names, noColor, tf, n);
    var k := KindPosition(syncs, ds, names, i);
    SyncAllOnlyGated(ds, scripts, names, noColor, tf, n, k);
    var m := SyncOfKind(syncs, ds, scripts, noColor, tf, i, k);
  }

  /** A gated entry's kind is the kind of some sync, when the syncs' kinds
      are the gated kinds. */
  lemma KindPosition(syncs: seq<Sync>, ds: seq<Descriptor>, names: seq<string>, i: nat) returns (k: nat)
    requires Types(syncs) == GatedTypes(ds, names)
    requires i < |ds| && Gated(ds[i], names)
    ensures k < |syncs| && syncs[k].objectType == ds[i].objectType
  {
    GatedTypesSound(ds, names, ds[i].objectType);
    k :| 0 <= k < |syncs| && Types(syncs)[k] == ds[i].objectType;
  }

  /** With distinct kinds, a sync that is some entry's and carries entry i's
      kind is entry i's. */
  lemma SyncOfKind(syncs: seq<Sync>, ds: seq<Descriptor>, scripts: seq<seq<Response>>, noColor: bool, tf: Runner, i: nat, k: nat)
      returns (m: nat)
    requires DistinctKinds(ds) && |scripts| == |ds| && i < |ds| && k < |syncs|
    requires syncs[k].objectType == ds[i].objectType
    requires exists j, m ::
      0 <= j < |ds| && WellFormed(ds[j]) && Answerable(ds[j], scripts[j]) && syncs[k] == SyncOne(ds[j], scripts[j], noColor, tf, m)
    ensures WellFormed(ds[i]) && Answerable(ds[i], scripts[i])
    ensures syncs[k] == SyncOne(ds[i], scripts[i], noColor, tf, m)
  {
    var j, m' :| 0 <= j < |ds| && WellFormed(ds[j]) && Answerable(ds[j], scripts[j])
      && syncs[k] == SyncOne(ds[j], scripts[j], noColor, tf, m');
    assert SyncOne(ds[j], scripts[j], noColor, tf, m').objectType == ds[j].objectType;
    assert j == i;
    m := m';
  }

  /** A kind appears among the gated kinds only if an entry of that kind is gated. */
  lemma {:induction false} GatedTypesSound(ds: seq<Descriptor>, names: seq<string>, t: string)
    ensures t in GatedTypes(ds, names) <==> exists i :: 0 <= i < |ds| && Gated(ds[i], names) && ds[i].objectType == t
  {
    if ds != [] {
      GatedTypesSound(ds[1..], names, t);
      if exists i :: 0 <= i < |ds| && Gated(ds[i], names) && ds[i].objectType == t {
        var i :| 0 <= i < |ds| && Gated(ds[i], names) && ds[i].objectType == t;
        if i > 0 {
          assert ds[1..][i - 1] == ds[i];
        }
      }
      if t in GatedTypes(ds[1..], names) {
        var i :| 0 <= i < |ds[1..]| && Gated(ds[1..][i], names) && ds[1..][i].objectType == t;
        assert ds[i + 1] == ds[1..][i];
      }
    }
  }

  /** The tool: init, and only if it succeeded, every registry entry in order. */
  function Run(args: Args, names: seq<string>, scripts: seq<seq<Response>>, tf: Runner): (r: Report)
    requires |scripts| == |ConfigList|
    requires Succeeded(tf(0, InitCommand(args.noColor, args.backendConfig))) ==>
      forall i :: 0 <= i < |ConfigList| && Gated(ConfigList[i], names) ==> Answerable(ConfigList[i], scripts[i])
    ensures r.initCommand == InitCommand(args.noColor, args.backendConfig)
    ensures r.initExit == tf(0, r.initCommand)
    ensures !Succeeded(r.initExit) ==> r.syncs == []
    ensures Succeeded(r.initExit) ==> Types(r.syncs) == GatedTypes(ConfigList, names)
    ensures Numbered(Attempts(r.syncs), args.noColor, tf, 1)
  {
    var cmd := InitCommand(args.noColor, args.backendConfig);
    var code := tf(0, cmd);
    if Succeeded(code) then
      RegistryWellFormed();
      ScriptsFitEach(ConfigList, scripts, names);
      Report(cmd, code, SyncAll(ConfigList, scripts, names, args.noColor, tf, 1))
    else Report(cmd, code, [])
  }

  /** A kind is reconciled in a run exactly when init succeeded and some
      file name starts with the kind; otherwise it sees no listing call and
      no import. */
  lemma KindSyncedIffGated(args: Args, names: seq<string>, scripts: seq<seq<Response>>, tf: Runner, i: nat)
    requires |scripts| == |ConfigList|
    requires Succeeded(tf(0, InitCommand(args.noColor, args.backendConfig))) ==>
      forall j :: 0 <= j < |ConfigList| && Gated(ConfigList[j], names) ==> Answerable(ConfigList[j], scripts[j])
    requires i < |ConfigList|
    ensures ConfigList[i].objectType in Types(Run(args, names, scripts, tf).syncs) <==>
      Succeeded(tf(0, InitCommand(args.noColor, args.backendConfig))) && Gated(ConfigList[i], names)
  {
    RegistryWellFormed();
    var r := Run(args, names, scripts, tf);
    if Succeeded(r.initExit) {
      GatedTypesSound(ConfigList, names, ConfigList[i].objectType);
    }
  }

  /** After a successful init, each gated kind is synced exactly as its own
      enumeration and imports prescribe: some sync of the run lists the
      kind's script page by page and imports every object it collected. */
  lemma RunSyncsEachGatedKind(args: Args, names: seq<string>, scripts: seq<seq<Response>>, tf: Runner, i: nat)
    requires |scripts| == |ConfigList|
    requires Succeeded(tf(0, InitCommand(args.noColor, args.backendConfig))) ==>
      forall j :: 0 <= j < |ConfigList| && Gated(ConfigList[j], names) ==> Answerable(ConfigList[j], scripts[j])
    requires i < |ConfigList| && Gated(ConfigList[i], names)
    requires Succeeded(tf(0, InitCommand(args.noColor, args.backendConfig)))
    ensures WellFormed(ConfigList[i]) && Answerable(ConfigList[i], scripts[i])
    ensures var syncs := Run(args, names, scripts, tf).syncs;
      exists k, m :: 0 <= k < |syncs| && syncs[k] == SyncOne(ConfigList[i], scripts[i], args.noColor, tf, m)
  {
    RegistryWellFormed();
    ScriptsFitEach(ConfigList, scripts, names);
    SyncAllHasEach(ConfigList, scripts, names, args.noColor, tf, 1, i);
  }

  /** Every sync of a run is a gated kind's enumeration of its own script
      and import of everything it collected. */
  lemma RunSyncIsGatedKind(args: Args, names: seq<string>, scripts: seq<seq<Response>>, tf: Runner, k: nat)
    requires |scripts| == |ConfigList|
    requires Succeeded(tf(0, InitCommand(args.noColor, args.backendConfig))) ==>
      forall j :: 0 <= j < |ConfigList| && Gated(ConfigList[j], names) ==> Answerable(ConfigList[j], scripts[j])
    requires k < |Run(args, names, scripts, tf).syncs|
    ensures var syncs := Run(args, names, scripts, tf).syncs;
      exists i, m :: 0 <= i < |ConfigList| && Gated(ConfigList[i], names) && WellFormed(ConfigList[i]) && Answerable(ConfigList[i], scripts[i])
        && syncs[k] == SyncOne(ConfigList[i], scripts[i], args.noColor, tf, m)
  {
    RegistryWellFormed();
    ScriptsFitEach(ConfigList, scripts, names);
    SyncAllOnlyGated(ConfigList, scripts, names, args.noColor, tf, 1, k);
  }
}
