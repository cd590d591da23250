/** The argument rewriter of permission_reconnect.py and its read-back in permission_status.py,
    for any wording of the options; Services.dfy gives the wording. */
module Permissions {
  import opened Options
  import opened Sequences

  datatype Policy = Full | ReadOnly | WorkspaceNetwork

  datatype Modes = Modes(full: string, readOnly: string, workspace: string) {
    function Of(p: Policy): string {
      match p
      case Full => full
      case ReadOnly => readOnly
      case WorkspaceNetwork => workspace
    }
  }

  /** How a resident's and an owner's arguments say a policy. */
  datatype Dialect =
    | Resident(g: Grammar, option: string, flag: string, modes: Modes)
    | Owner(g: Grammar, option: string, sandboxKey: string, networkKey: string, modes: Modes)
  {
    function Sandbox(p: Policy): string
      requires Owner?
    {
      sandboxKey + "=" + ("\"" + modes.Of(p) + "\"")
    }

    function Network(p: Policy): string
      requires Owner?
    {
      networkKey + "=" + (if p.WorkspaceNetwork? then "true" else "false")
    }
  }

  predicate Dashed(word: string) {
    word != "" && word[0] == '-'
  }

  predicate Undashed(word: string) {
    word != "" && word[0] != '-'
  }

  /** What the rewriter relies on: every option has its dash and no key or mode has one; the
      modes differ; and what is written reads as an override. A resident's arguments have no
      configuration pairs. */
  predicate Sound(d: Dialect) {
    && Dashed(d.g.inline) && Undashed(d.g.keyPrefix)
    && (forall w | w in d.g.valued + d.g.alone + d.g.pairs + d.g.compact :: Dashed(w))
    && (forall k | k in d.g.keys :: Undashed(k))
    && Undashed(d.modes.full) && Undashed(d.modes.readOnly) && Undashed(d.modes.workspace)
    && d.modes.full != d.modes.readOnly && d.modes.full != d.modes.workspace && d.modes.readOnly != d.modes.workspace
    && match d
       case Resident(g, option, flag, modes) => option in g.valued && flag in g.alone - g.valued && g.pairs == {}
       case Owner(g, option, sandboxKey, networkKey, modes) =>
         && option in g.pairs - g.alone - g.valued && !(g.inline <= option)
         && Bare(sandboxKey) && Bare(networkKey) && sandboxKey in g.keys && networkKey in g.keys
  }

  lemma UndashedIsPlain(word: string, d: Dialect)
    requires Sound(d) && Undashed(word)
    ensures d.g.KindOf(word).Plain?
  {
    var options := d.g.valued + d.g.alone + d.g.pairs + d.g.compact;
    forall c | c in d.g.compact ensures !(c <= word) {
      assert c in options && Dashed(c);
    }
    assert word !in options && d.g.inline[0] == '-';
  }

  /** The overrides that write a policy. */
  function Written(p: Policy, d: Dialect): seq<Unit> {
    match d
    case Resident(_, option, flag, modes) =>
      [Override([option, modes.Of(p)])] + if p.WorkspaceNetwork? then [Override([flag])] else []
    case Owner(_, option, _, _, _) => [Override([option, d.Sandbox(p)]), Override([option, d.Network(p)])]
  }

  function Rewritten(args: seq<string>, p: Policy, d: Dialect): Result<seq<string>, Failure> {
    Replaced(args, Written(p, d), d.g, d.Resident?)
  }

  lemma WordsOfTwo(u: Unit, v: Unit)
    ensures Words([u]) == u.words && Words([u, v]) == u.words + v.words
  {
    assert [u][1..] == [] && [v][1..] == [] && [u, v][1..] == [v];
    assert u.words + [] == u.words && v.words + [] == v.words;
    assert Words([v]) == v.words;
  }

  /** `policy_args` */
  method PolicyArgs(args: seq<string>, p: Policy, d: Dialect) returns (result: Result<seq<string>, Failure>)
    ensures result == Rewritten(args, p, d)
  {
    result := KeepOthers(args, d.g);
    if result.Err? {
      return;
    }
    var out := result.value;
    if d.Resident? {
      WordsOfTwo(Override([d.option, d.modes.Of(p)]), Override([d.flag]));
      ghost var kept := out;
      out := out + [d.option, d.modes.Of(p)];
      if p.WorkspaceNetwork? {
        out := out + [d.flag];
        assert out == kept + ([d.option, d.modes.Of(p)] + [d.flag]);
      }
    } else {
      WordsOfTwo(Override([d.option, d.Sandbox(p)]), Override([d.option, d.Network(p)]));
      out := InsertAtOne(out, [d.option, d.Sandbox(p)] + [d.option, d.Network(p)]);
    }
    result := Ok(out);
  }

  lemma PairProper(word: string, setting: string, g: Grammar)
    requires g.KindOf(word).Valued? || (g.KindOf(word).Setting? && g.Permission(setting))
    ensures Proper(Override([word, setting]), g)
  {
    assert [word, setting][..2] == [word, setting];
  }

  /** What is written for a policy reads as overrides. */
  lemma WrittenProper(p: Policy, d: Dialect)
    requires Sound(d)
    ensures forall u | u in Written(p, d) :: Proper(u, d.g) && u.Override?
  {
    match d
    case Resident(g, option, flag, modes) =>
      PairProper(option, modes.Of(p), g);
      assert [flag][..1] == [flag];
    case Owner(g, option, sandboxKey, networkKey, modes) =>
      KeyOf(sandboxKey, "\"" + modes.Of(p) + "\"");
      KeyOf(networkKey, if p.WorkspaceNetwork? then "true" else "false");
      PairProper(option, d.Sandbox(p), g);
      PairProper(option, d.Network(p), g);
  }

  /** An owner's arguments keep a configuration pair first. */
  predicate PairLeads(args: seq<string>, d: Dialect) {
    d.Owner? && PairFirst(args, d.g)
  }

  /** The main result on one rewrite: every argument that sets no permission stays, in its
      order, and the permissions set are exactly those of the policy. */
  lemma RewriteIsExact(args: seq<string>, p: Policy, d: Dialect)
    requires Sound(d) && Units(args, d.g).Ok? && !PairLeads(args, d)
    ensures var units := Units(Rewritten(args, p, d).value, d.g);
      && units.Ok?
      && Others(units.value) == Others(Units(args, d.g).value)
      && Overrides(units.value) == Written(p, d)
  {
    WrittenProper(p, d);
    ReplacementIsExact(args, Written(p, d), d.g, d.Resident?);
  }

  /** A later rewrite absorbs an earlier one. */
  lemma Absorbs(args: seq<string>, p: Policy, q: Policy, d: Dialect)
    requires Sound(d) && Units(args, d.g).Ok? && !PairLeads(args, d)
    ensures Rewritten(Rewritten(args, p, d).value, q, d) == Rewritten(args, q, d)
  {
    RewriteIsExact(args, p, d);
  }

  /** Arguments that start with an executable path do not start with a configuration pair. */
  lemma ExecutableFirst(args: seq<string>, d: Dialect)
    requires Sound(d) && args != [] && Undashed(args[0])
    ensures !PairLeads(args, d)
  {
    UndashedIsPlain(args[0], d);
  }

  /** An owner's rewrite that splits a leading pair leaves its own setting behind. */
  lemma SettingLeft(args: seq<string>, p: Policy, d: Dialect)
    requires Sound(d) && PairLeads(args, d)
    ensures var kept, again := Kept(args, d.g).value, Kept(Rewritten(args, p, d).value, d.g);
      |kept| >= 2 && (again.Ok? ==> |again.value| >= 3 && again.value[2] == d.Sandbox(p))
  {
    var kept, more := Kept(args, d.g).value, [d.option, d.Network(p)];
    assert d.option in d.g.valued + d.g.alone + d.g.pairs + d.g.compact;
    DashedKey(d.option);
    UndashedIsPlain(d.Sandbox(p), d);
    SplitPairRead(args, d.option, d.Sandbox(p), more, d.g);
    WordsOfTwo(Override([d.option, d.Sandbox(p)]), Override(more));
    assert Rewritten(args, p, d).value == [kept[0], d.option, d.Sandbox(p)] + more + kept[1..];
    var again := Kept(Rewritten(args, p, d).value, d.g);
    if again.Ok? {
      assert again.value[2] == again.value[..3][2];
    }
  }

  lemma DoesNotAbsorb(args: seq<string>, p: Policy, d: Dialect)
    requires Sound(d) && PairLeads(args, d)
    requires var kept := Kept(args, d.g).value; |kept| > 2 ==> kept[2] != d.Sandbox(p)
    ensures Rewritten(Rewritten(args, p, d).value, p, d) != Rewritten(args, p, d)
  {
    SettingLeft(args, p, d);
    var kept, again := Kept(args, d.g).value, Kept(Rewritten(args, p, d).value, d.g);
    if Rewritten(Rewritten(args, p, d).value, p, d) == Rewritten(args, p, d) {
      InsertInjective(again.value, kept, Words(Written(p, d)));
    }
  }

  lemma SettingsDiffer(d: Dialect)
    requires Sound(d) && d.Owner?
    ensures d.Sandbox(Full) != d.Sandbox(ReadOnly)
  {
    var n := |d.sandboxKey| + 2;
    var a, b := d.Sandbox(Full), d.Sandbox(ReadOnly);
    assert a[n..|a| - 1] == d.modes.full && b[n..|b| - 1] == d.modes.readOnly;
  }

  /** The main result on two rewrites: for a resident they always absorb; for an owner they do,
      whatever the policies, exactly when the first argument kept does not begin a configuration
      pair. */
  lemma AbsorbsExactly(args: seq<string>, d: Dialect)
    requires Sound(d) && Units(args, d.g).Ok?
    ensures (forall p, q :: Rewritten(Rewritten(args, p, d).value, q, d) == Rewritten(args, q, d))
       <==> !PairLeads(args, d)
  {
    if !PairLeads(args, d) {
      forall p, q ensures Rewritten(Rewritten(args, p, d).value, q, d) == Rewritten(args, q, d) {
        Absorbs(args, p, q, d);
      }
    } else {
      var kept := Kept(args, d.g).value;
      SettingsDiffer(d);
      DoesNotAbsorb(args, if |kept| > 2 && kept[2] == d.Sandbox(Full) then ReadOnly else Full, d);
    }
  }

  // ----- the read-back

  /** The words that follow an option's name. */
  function Values(args: seq<string>, name: string): seq<string> {
    if |args| < 2 then []
    else (if args[0] == name then [args[1]] else []) + Values(args[1..], name)
  }

  /** `_option`: the value of an option given exactly once. */
  function OptionValue(args: seq<string>, name: string): Option<string> {
    var values := Values(args, name);
    if |values| == 1 then Some(values[0]) else None
  }

  datatype Label = FullAccess | ReadOnlyAccess | Workspace | ProjectAccess | Unknown | Mixed

  /** The label of one saved resident service. */
  function JobLabel(args: seq<string>, d: Dialect): Label
    requires d.Resident?
  {
    match OptionValue(args, d.option)
    case None => Unknown
    case Some(mode) =>
      if mode == d.modes.Of(WorkspaceNetwork) then if d.flag in args then ProjectAccess else Workspace
      else if mode == d.modes.Of(Full) then FullAccess
      else if mode == d.modes.Of(ReadOnly) then ReadOnlyAccess
      else Unknown
  }

  function PolicyLabel(p: Policy): Label {
    match p
    case Full => FullAccess
    case ReadOnly => ReadOnlyAccess
    case WorkspaceNetwork => ProjectAccess
  }

  lemma {:induction false} ValuesAtEnd(kept: seq<string>, name: string, tail: seq<string>)
    requires name !in kept && tail != [] && tail[0] == name
    ensures Values(kept + tail, name) == Values(tail, name)
  {
    if kept == [] {
      assert kept + tail == tail;
    } else {
      ValuesAtEnd(kept[1..], name, tail);
      assert (kept + tail)[1..] == kept[1..] + tail;
      assert kept[0] in kept;
    }
  }

  /** Without configuration pairs every word kept is a plain one. */
  lemma {:induction false} KeptArePlain(units: seq<Unit>, g: Grammar)
    requires forall u | u in units :: Proper(u, g)
    requires g.pairs == {}
    ensures forall word | word in Words(Others(units)) :: g.KindOf(word).Plain?
  {
    if units != [] {
      var first, rest := units[0], units[1..];
      KeptArePlain(rest, g);
      assert first in units && Proper(first, g);
      if first.Other? {
        assert first.words == [first.words[0]];
        assert Others(units) == [first] + Others(rest) && Others(units)[1..] == Others(rest);
      }
    }
  }

  lemma TailValues(p: Policy, d: Dialect)
    requires Sound(d) && d.Resident?
    ensures var tail := Words(Written(p, d));
      && tail == [d.option, d.modes.Of(p)] + (if p.WorkspaceNetwork? then [d.flag] else [])
      && Values(tail, d.option) == [d.modes.Of(p)]
  {
    WordsOfTwo(Override([d.option, d.modes.Of(p)]), Override([d.flag]));
    var tail := Words(Written(p, d));
    assert tail[1..] == [d.modes.Of(p)] + (if p.WorkspaceNetwork? then [d.flag] else []);
    assert Undashed(d.modes.Of(p)) && Dashed(d.option);
    assert |tail| == 3 ==> |tail[1..][1..]| == 1;
    assert Values(tail[1..], d.option) == [];
  }

  /** The main result on the read-back: the label read from rewritten resident arguments is
      exactly that of the policy written. */
  lemma LabelReadsBack(args: seq<string>, p: Policy, d: Dialect)
    requires Sound(d) && d.Resident? && Rewritten(args, p, d).Ok?
    ensures JobLabel(Rewritten(args, p, d).value, d) == PolicyLabel(p)
  {
    var kept := Kept(args, d.g).value;
    WordsOfUnits(args, d.g);
    KeptArePlain(Units(args, d.g).value, d.g);
    TailValues(p, d);
    var tail := Words(Written(p, d));
    assert tail[0] == d.option;
    ValuesAtEnd(kept, d.option, tail);
    assert d.flag in kept + tail <==> d.flag in tail;
  }

  // ----- labels of bindings and conversations

  datatype Binding = Binding(endpoint: Option<string>, enabled: bool, permission: Label)

  class Conversation {
    const thread: Option<string>
    var bindings: seq<Binding>
    var permissionLabel: Label

    constructor (thread: Option<string>, bindings: seq<Binding>)
      ensures this.thread == thread && this.bindings == bindings && permissionLabel == Unknown
    {
      this.thread, this.bindings, permissionLabel := thread, bindings, Unknown;
    }

    /** The round of `configured_permissions` for this conversation. */
    method Configure(jobs: seq<seq<string>>, d: Dialect, names: Names)
      requires d.Resident?
      modifies this
      ensures bindings == Labelled(old(bindings), thread, jobs, d, names)
      ensures permissionLabel == Summary(bindings)
    {
      var i := 0;
      while i < |bindings|
        invariant 0 <= i <= |bindings| == |old(bindings)|
        invariant forall j | 0 <= j < i :: bindings[j] == Labelled(old(bindings), thread, jobs, d, names)[j]
        invariant forall j | i <= j < |bindings| :: bindings[j] == old(bindings)[j]
      {
        var modes: seq<Label> := [];
        var j := 0;
        while j < |jobs|
          invariant 0 <= j <= |jobs|
          invariant modes == LabelsOf(jobs[..j], bindings[i].endpoint, thread, d, names)
        {
          assert jobs[..j + 1][..j] == jobs[..j];
          if Matches(jobs[j], bindings[i].endpoint, thread, names) {
            modes := modes + [JobLabel(jobs[j], d)];
          }
          j := j + 1;
        }
        assert jobs[..j] == jobs;
        bindings := bindings[i := bindings[i].(permission := Unified(modes))];
        i := i + 1;
      }
      permissionLabel := Summary(bindings);
    }
  }

  /** The words a resident service is found by. */
  datatype Names = Names(resident: string, endpoint: string, thread: string)

  /** A service that serves this thread at this endpoint. */
  predicate Matches(args: seq<string>, endpoint: Option<string>, thread: Option<string>, names: Names) {
    && names.resident in args
    && OptionValue(args, names.endpoint) == endpoint
    && thread.Some? && thread.value in Values(args, names.thread)
  }

  /** The labels of the matching services. */
  function LabelsOf(jobs: seq<seq<string>>, endpoint: Option<string>, thread: Option<string>, d: Dialect,
                    names: Names): seq<Label>
    requires d.Resident?
  {
    if jobs == [] then []
    else
      LabelsOf(Front(jobs), endpoint, thread, d, names)
      + if Matches(Last(jobs), endpoint, thread, names) then [JobLabel(Last(jobs), d)] else []
  }

  /** The one label they all have; Mixed when they differ, Unknown when there is none. */
  function Unified(labels: seq<Label>): (common: Label)
    ensures labels == [] ==> common == Unknown
    ensures labels != [] && common != Mixed ==> forall l | l in labels :: l == common
  {
    if labels == [] then Unknown
    else if forall l | l in labels :: l == labels[0] then labels[0]
    else
      assert labels[0] in labels;
      Mixed
  }

  lemma Agreed(labels: seq<Label>, common: Label)
    requires labels != [] && forall l | l in labels :: l == common
    ensures Unified(labels) == common
  {
    assert labels[0] in labels;
  }

  function Labelled(
    bindings: seq<Binding>, thread: Option<string>, jobs: seq<seq<string>>, d: Dialect, names: Names): (r: seq<Binding>)
    requires d.Resident?
    ensures |r| == |bindings|
  {
    seq(|bindings|, i requires 0 <= i < |bindings| =>
      bindings[i].(permission := Unified(LabelsOf(jobs, bindings[i].endpoint, thread, d, names))))
  }

  function Active(bindings: seq<Binding>): seq<Binding> {
    Filter(bindings, (b: Binding) => b.enabled)
  }

  /** The label of a conversation: that of its enabled bindings, or of all when none is. */
  function Summary(bindings: seq<Binding>): Label {
    var shown := if Active(bindings) == [] then bindings else Active(bindings);
    Unified(seq(|shown|, i requires 0 <= i < |shown| => shown[i].permission))
  }

  lemma ReadsFor(job: seq<string>, p: Policy, d: Dialect)
    requires Sound(d) && d.Resident? && WrittenFor(job, p, d)
    ensures JobLabel(job, d) == PolicyLabel(p)
  {
    var args :| Rewritten(args, p, d) == Ok(job);
    LabelReadsBack(args, p, d);
  }

  lemma {:induction false} ModesOfPolicy(jobs: seq<seq<string>>, endpoint: Option<string>, thread: Option<string>,
                                         d: Dialect, names: Names, p: Policy)
    requires Sound(d) && d.Resident?
    requires forall job | job in jobs && Matches(job, endpoint, thread, names) :: WrittenFor(job, p, d)
    ensures forall l | l in LabelsOf(jobs, endpoint, thread, d, names) :: l == PolicyLabel(p)
    ensures LabelsOf(jobs, endpoint, thread, d, names) == []
       <==> forall job | job in jobs :: !Matches(job, endpoint, thread, names)
  {
    if jobs != [] {
      var front, last := Front(jobs), Last(jobs);
      assert jobs == front + [last];
      ModesOfPolicy(front, endpoint, thread, d, names, p);
      if Matches(last, endpoint, thread, names) {
        ReadsFor(last, p, d);
      }
    }
  }

  /** The service's arguments are what a rewrite for this policy left. */
  ghost predicate WrittenFor(job: seq<string>, p: Policy, d: Dialect) {
    exists args :: Rewritten(args, p, d) == Ok(job)
  }

  /** The main result on a conversation: once every service of its bindings was rewritten for a
      policy, each binding a service serves, and a conversation of such bindings, is labelled
      with exactly that policy. */
  lemma ConversationReadsBack(bindings: seq<Binding>, thread: Option<string>, jobs: seq<seq<string>>,
                              d: Dialect, names: Names, p: Policy)
    requires Sound(d) && d.Resident? && bindings != []
    requires forall job, b | job in jobs && b in bindings && Matches(job, b.endpoint, thread, names) ::
      WrittenFor(job, p, d)
    requires forall b | b in bindings :: exists job :: job in jobs && Matches(job, b.endpoint, thread, names)
    ensures forall b | b in Labelled(bindings, thread, jobs, d, names) :: b.permission == PolicyLabel(p)
    ensures Summary(Labelled(bindings, thread, jobs, d, names)) == PolicyLabel(p)
  {
    var labelled := Labelled(bindings, thread, jobs, d, names);
    forall i | 0 <= i < |labelled| ensures labelled[i].permission == PolicyLabel(p) {
      assert bindings[i] in bindings;
      ModesOfPolicy(jobs, bindings[i].endpoint, thread, d, names, p);
      Agreed(LabelsOf(jobs, bindings[i].endpoint, thread, d, names), PolicyLabel(p));
    }
    var shown := if Active(labelled) == [] then labelled else Active(labelled);
    forall i | 0 <= i < |shown| ensures shown[i].permission == PolicyLabel(p) {
      assert shown[i] in labelled;
    }
    Agreed(seq(|shown|, i requires 0 <= i < |shown| => shown[i].permission), PolicyLabel(p));
  }
}
