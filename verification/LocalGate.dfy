/** The resumable validation round of `scripts/local_gate.py`, against sources
    and an environment that can change at any point. */
module LocalGate {
  import opened Basics

  datatype Status = Running | Stopped | Failed | Passed

  datatype Record = Record(status: Status, inputs: string)

  datatype Round = Round(tree: string, inputs: map<string, string>)

  /** The state file. `passes` is keyed by group and by digest of the inputs. */
  datatype State = State(groups: map<string, Record>, passes: map<string, map<string, Record>>,
                         cursor: Option<string>, cursors: map<string, string>, rounds: map<string, Round>)

  const EMPTY: State := State(map[], map[], None, map[], map[])

  /** What a call into the outside gives back: a value, one of the errors the
      gate handles, an interrupting signal, or any other exception. */
  datatype Got<+T> = Got(value: T) | Raised | Interrupted | Died

  /** What one turn of a group meets: the source tree and inputs before it, the
      preparation with the tree and inputs behind it, the command, and the tree
      and inputs after it. */
  datatype Script = Script(tree: Got<string>, inputs: Got<string>, prepare: Option<Preparation>, exit: Got<int>,
                           treeAfter: Got<string>, after: Got<string>)

  datatype Preparation = Preparation(exit: Got<int>, tree: Got<string>, inputs: Got<string>)

  /** A successful execution of a group's command, with its inputs before and
      after. */
  datatype Success = Success(group: string, before: string, after: string)

  datatype Flow = Continue | Return(code: int) | Abort

  // -------------------------------------------------------------- one group

  function PointAt(s: State, profile: string, name: string): State {
    s.(cursors := s.cursors[profile := name], cursor := Some(name), rounds := s.rounds - {profile})
  }

  function SetRecord(s: State, name: string, r: Record): State {
    s.(groups := s.groups[name := r])
  }

  function CachedPass(digest: string -> string, s: State, name: string, inputs: string): Option<Record> {
    if name in s.passes && digest(inputs) in s.passes[name] &&
       s.passes[name][digest(inputs)].status == Passed && s.passes[name][digest(inputs)].inputs == inputs
    then Some(s.passes[name][digest(inputs)]) else None
  }

  function AddPass(digest: string -> string, s: State, name: string, r: Record): State {
    s.(passes := s.passes[name := (if name in s.passes then s.passes[name] else map[])[digest(r.inputs) := r]])
  }

  /** How an attempt ends: with a result and the inputs to record, and whether
      the signal or a foreign exception cut it off. */
  datatype Ending = Ending(result: int, inputs: string, interrupted: bool, died: bool)

  /** The inputs in force after the preparation, or how the attempt ended. */
  function Prepared(tree: string, current: string, p: Option<Preparation>): Result<string, Ending> {
    if p.None? then Ok(current)
    else
      var q := p.value;
      if q.exit.Interrupted? then Err(Ending(1, current, true, false))
      else if q.exit.Died? then Err(Ending(1, current, false, true))
      else if q.exit.Raised? || q.exit.value != 0 then Err(Ending(1, current, false, false))
      else if q.tree.Interrupted? then Err(Ending(0, current, true, false))
      else if q.tree.Died? then Err(Ending(0, current, false, true))
      else if q.tree != Got(tree) then Err(Ending(1, current, false, false))
      else match q.inputs
      case Got(inputs) => Ok(inputs)
      case Raised => Err(Ending(1, current, false, false))
      case Interrupted => Err(Ending(0, current, true, false))
      case Died => Err(Ending(0, current, false, true))
  }

  /** The command and the checks behind it; `first` are the inputs the attempt
      started with, `current` those in force when the command runs. */
  function Executed(tree: string, first: string, current: string, x: Script): Ending {
    match x.exit
    case Raised => Ending(1, first, false, false)
    case Interrupted => Ending(if x.prepare.Some? then 0 else 1, first, true, false)
    case Died => Ending(if x.prepare.Some? then 0 else 1, first, false, true)
    case Got(code) =>
      if x.treeAfter.Raised? then Ending(1, first, false, false)
      else if x.treeAfter.Interrupted? then Ending(code, first, true, false)
      else if x.treeAfter.Died? then Ending(code, first, false, true)
      else
        var result := if x.treeAfter == Got(tree) then code else 1;
        match x.after
        case Raised => Ending(1, first, false, false)
        case Interrupted => Ending(result, first, true, false)
        case Died => Ending(result, first, false, true)
        case Got(after) => Ending(if after == current then result else 1, after, false, false)
  }

  /** The `finally` of an attempt: the record, and for a success the pass. */
  function Recorded(digest: string -> string, s: State, name: string, inputs: string, e: Ending): State {
    if e.interrupted then SetRecord(s, name, Record(Stopped, inputs))
    else if e.result != 0 then SetRecord(s, name, Record(Failed, inputs))
    else AddPass(digest, SetRecord(s, name, Record(Passed, e.inputs)), name, Record(Passed, e.inputs))
  }

  function FlowOf(e: Ending): Flow {
    if e.died then Abort
    else if e.interrupted then Return(130)
    else if e.result != 0 then Return(if 0 < e.result < 126 then e.result else 1)
    else Continue
  }

  /** The attempt of a group whose inputs have been read: what is written, how
      the round goes on, and the successful execution it amounts to. */
  function Attempt(digest: string -> string, s: State, tree: string, name: string, current: string, x: Script): Course {
    var running := SetRecord(s, name, Record(Running, current));
    match Prepared(tree, current, x.prepare)
    case Err(e) => ([running, Recorded(digest, running, name, current, e)], FlowOf(e), {})
    case Ok(inputs) =>
      var ready := SetRecord(running, name, Record(Running, inputs));
      var e := Executed(tree, current, inputs, x);
      ((if x.prepare.Some? then [running, ready] else [running]) + [Recorded(digest, ready, name, inputs, e)],
          FlowOf(e),
       if x.exit == Got(0) && x.treeAfter == Got(tree) && x.after == Got(inputs) then {Success(name, inputs, inputs)}
           else {})
  }

  /** One turn of the loop over the ordered groups. */
  function Turn(digest: string -> string, s: State, profile: string, force: bool, tree: string, name: string,
          x: Script): Course {
    var pointed := PointAt(s, profile, name);
    if x.tree != Got(tree) || !x.inputs.Got? then ([pointed], Abort, {})
    else
      var cached := CachedPass(digest, pointed, name, x.inputs.value);
      if !force && cached.Some? then ([pointed, SetRecord(pointed, name, cached.value)], Continue, {})
      else
        var r := Attempt(digest, pointed, tree, name, x.inputs.value, x);
        ([pointed] + r.0, r.1, r.2)
  }

  // ------------------------------------------------------------------- trust

  /** Every recorded pass rests on a successful execution with these inputs
      before and after it. */
  ghost predicate Trusted(s: State, known: set<Success>) {
    && (forall n | n in s.groups && s.groups[n].status == Passed ::
        Success(n, s.groups[n].inputs, s.groups[n].inputs) in known)
    && (forall n, d | n in s.passes && d in s.passes[n] && s.passes[n][d].status == Passed ::
          Success(n, s.passes[n][d].inputs, s.passes[n][d].inputs) in known)
  }

  ghost predicate AllTrusted(states: seq<State>, known: set<Success>) {
    forall i | 0 <= i < |states| :: Trusted(states[i], known)
  }

  /** An exception the gate does not handle, after a call that succeeded: the
      `finally` still records a pass although the checks were never finished. */
  predicate DiesUnchecked(tree: string, x: Script) {
    || (x.prepare.Some? && x.prepare.value.exit == Got(0) &&
        var p := x.prepare.value;
        p.tree.Died? || (p.tree == Got(tree) && (p.inputs.Died? || (p.inputs.Got? && x.exit.Died?))))
    || (Commands(tree, x) && x.exit == Got(0) && (x.treeAfter.Died? || (x.treeAfter == Got(tree) && x.after.Died?)))
  }

  /** The preparation, if there is one, lets the attempt go on to the command. */
  predicate Commands(tree: string, x: Script) {
    x.prepare.Some? ==>
      x.prepare.value.exit == Got(0) && x.prepare.value.tree == Got(tree) && x.prepare.value.inputs.Got?
  }

  lemma {:induction false} SetKeepsTrust(s: State, known: set<Success>, name: string, r: Record)
    requires Trusted(s, known) && (r.status == Passed ==> Success(name, r.inputs, r.inputs) in known)
    ensures Trusted(SetRecord(s, name, r), known)
  {}

  lemma {:induction false} PassKeepsTrust(digest: string -> string, s: State, known: set<Success>, name: string,
          r: Record)
    requires Trusted(s, known) && (r.status == Passed ==> Success(name, r.inputs, r.inputs) in known)
    ensures Trusted(AddPass(digest, s, name, r), known)
  {}

  lemma {:induction false} MoreKnown(s: State, known: set<Success>, more: set<Success>)
    requires Trusted(s, known)
    ensures Trusted(s, known + more)
  {}

  lemma {:induction false} RecordedKeepsTrust(digest: string -> string, s: State, known: set<Success>, name: string,
          inputs: string,
          e: Ending)
    requires Trusted(s, known) && (!e.interrupted && e.result == 0 ==> Success(name, e.inputs, e.inputs) in known)
    ensures Trusted(Recorded(digest, s, name, inputs, e), known)
  {
    if e.interrupted {
      SetKeepsTrust(s, known, name, Record(Stopped, inputs));
    } else if e.result != 0 {
      SetKeepsTrust(s, known, name, Record(Failed, inputs));
    } else {
      SetKeepsTrust(s, known, name, Record(Passed, e.inputs));
      PassKeepsTrust(digest, SetRecord(s, name, Record(Passed, e.inputs)), known, name, Record(Passed, e.inputs));
    }
  }

  lemma {:induction false} AttemptKeepsTrust(digest: string -> string, s: State, known: set<Success>, tree: string,
          name: string,
          current: string, x: Script)
    requires Trusted(s, known) && !DiesUnchecked(tree, x)
    ensures var r := Attempt(digest, s, tree, name, current, x); AllTrusted(r.0, known + r.2)
  {
    var r := Attempt(digest, s, tree, name, current, x);
    MoreKnown(s, known, r.2);
    var running := SetRecord(s, name, Record(Running, current));
    SetKeepsTrust(s, known + r.2, name, Record(Running, current));
    match Prepared(tree, current, x.prepare)
    case Err(e) => RecordedKeepsTrust(digest, running, known + r.2, name, current, e);
    case Ok(inputs) =>
      SetKeepsTrust(running, known + r.2, name, Record(Running, inputs));
      RecordedKeepsTrust(digest, SetRecord(running, name, Record(Running, inputs)), known + r.2, name, inputs,
          Executed(tree, current, inputs, x));
  }

  lemma {:induction false} TurnKeepsTrust(digest: string -> string, s: State, known: set<Success>, profile: string,
          force: bool,
          tree: string, name: string, x: Script)
    requires Trusted(s, known) && !DiesUnchecked(tree, x)
    ensures var r := Turn(digest, s, profile, force, tree, name, x); AllTrusted(r.0, known + r.2)
  {
    var pointed := PointAt(s, profile, name);
    MoreKnown(pointed, known, Turn(digest, s, profile, force, tree, name, x).2);
    if x.tree == Got(tree) && x.inputs.Got? {
      AttemptKeepsTrust(digest, pointed, known, tree, name, x.inputs.value, x);
      var cached := CachedPass(digest, pointed, name, x.inputs.value);
      if cached.Some? { SetKeepsTrust(pointed, known, name, cached.value); }
    }
  }

  /** A turn that reaches its command keeps every recorded pass founded exactly
      when no foreign exception cuts it off after a success, unless the inputs
      had passed before anyway. */
  lemma {:induction false} TurnTrustExactly(digest: string -> string, s: State, known: set<Success>, profile: string,
          force: bool,
          tree: string, name: string, x: Script)
    requires Trusted(s, known) && x.tree == Got(tree) && x.inputs.Got?
    requires force || CachedPass(digest, PointAt(s, profile, name), name, x.inputs.value).None?
    ensures var r := Turn(digest, s, profile, force, tree, name, x);
            AllTrusted(r.0, known + r.2) <==>
            !DiesUnchecked(tree, x) || Success(name, x.inputs.value, x.inputs.value) in known
  {
    if !DiesUnchecked(tree, x) {
      TurnKeepsTrust(digest, s, known, profile, force, tree, name, x);
    } else {
      UncheckedRecords(digest, PointAt(s, profile, name), known, tree, name, x.inputs.value, x);
      var pointed, r := PointAt(s, profile, name),
          Attempt(digest, PointAt(s, profile, name), tree, name, x.inputs.value, x);
      MoreKnown(pointed, known, r.2);
      assert forall i | 0 <= i < |r.0| :: ([pointed] + r.0)[i + 1] == r.0[i];
    }
  }

  /** What an attempt that died unchecked leaves: the last record is a pass. */
  lemma {:induction false} UncheckedLast(digest: string -> string, s: State, tree: string, name: string,
          current: string, x: Script)
    requires DiesUnchecked(tree, x)
    ensures var r := Attempt(digest, s, tree, name, current, x);
            r.2 == {} && |r.0| > 0 && name in r.0[|r.0| - 1].groups &&
                r.0[|r.0| - 1].groups[name] == Record(Passed, current)
  {}

  lemma {:induction false} UncheckedKeeps(digest: string -> string, s: State, known: set<Success>, tree: string,
          name: string,
          current: string, x: Script)
    requires Trusted(s, known) && DiesUnchecked(tree, x) && Success(name, current, current) in known
    ensures AllTrusted(Attempt(digest, s, tree, name, current, x).0, known)
  {
    var running := SetRecord(s, name, Record(Running, current));
    SetKeepsTrust(s, known, name, Record(Running, current));
    match Prepared(tree, current, x.prepare)
    case Err(e) => RecordedKeepsTrust(digest, running, known, name, current, e);
    case Ok(inputs) =>
      var ready := SetRecord(running, name, Record(Running, inputs));
      SetKeepsTrust(running, known, name, Record(Running, inputs));
      RecordedKeepsTrust(digest, ready, known, name, inputs, Executed(tree, current, inputs, x));
  }

  lemma {:induction false} UncheckedRecords(digest: string -> string, s: State, known: set<Success>, tree: string,
          name: string,
          current: string, x: Script)
    requires Trusted(s, known) && DiesUnchecked(tree, x)
    ensures var r := Attempt(digest, s, tree, name, current, x);
            r.2 == {} && (AllTrusted(r.0, known) <==> Success(name, current, current) in known)
  {
    var r := Attempt(digest, s, tree, name, current, x);
    UncheckedLast(digest, s, tree, name, current, x);
    if Success(name, current, current) in known {
      UncheckedKeeps(digest, s, known, tree, name, current, x);
    } else {
      assert !Trusted(r.0[|r.0| - 1], known);
    }
  }

  // --------------------------------------------------------------- one round

  /** What is written, how it ends, and the successful executions in it. */
  type Course = (seq<State>, Flow, set<Success>)

  /** A turn, and unless it ends the round, what follows it. */
  function Then(r: Course, more: Course): Course {
    if r.1 != Continue then r else (r.0 + more.0, more.1, r.2 + more.2)
  }

  function Last(s: State, written: seq<State>): State {
    if written == [] then s else written[|written| - 1]
  }

  function Turns(digest: string -> string, s: State, profile: string, force: bool, tree: string, names: seq<string>,
          xs: seq<Script>)
    : Course
    requires |xs| == |names|
    decreases names
  {
    if names == [] then ([], Continue, {})
    else
      var r := Turn(digest, s, profile, force, tree, names[0], xs[0]);
      Then(r, Turns(digest, Last(s, r.0), profile, force, tree, names[1..], xs[1..]))
  }

  predicate HoldsPass(s: State, name: string, expected: string) {
    name in s.groups && s.groups[name] == Record(Passed, expected)
  }

  /** The first selected group whose inputs cannot be read, or whose record does
      not hold a pass for the inputs read now. */
  function FirstOpen(s: State, selected: seq<string>, expected: seq<Got<string>>): nat
    requires |expected| == |selected|
  {
    if selected == [] || !expected[0].Got? || !HoldsPass(s, selected[0], expected[0].value) then 0
    else 1 + FirstOpen(s, selected[1..], expected[1..])
  }

  function KeysOf(digest: string -> string, selected: seq<string>, expected: seq<Got<string>>): map<string, string>
    requires |expected| == |selected|
  {
    if selected == [] || !expected[|selected| - 1].Got? then map[]
    else KeysOf(digest, selected[..|selected| - 1], expected[..|selected| - 1])[selected[|selected| - 1] :=
        digest(expected[|selected| - 1].value)]
  }

  /** The check behind the loop: every selected group is recomputed. */
  function Complete(digest: string -> string, s: State, profile: string, tree: string, selected: seq<string>,
                    expected: seq<Got<string>>, treeEnd: Got<string>): (seq<State>, Flow)
    requires |expected| == |selected| && selected != []
  {
    var i := FirstOpen(s, selected, expected);
    if i < |selected| then
      if !expected[i].Got? then ([], Abort)
      else ([s.(cursors := s.cursors[profile := selected[i]], cursor := Some(selected[i]))], Return(1))
    else if treeEnd != Got(tree) then ([], Abort)
    else
      ([s.(rounds := s.rounds[profile := Round(tree, KeysOf(digest, selected, expected))],
          cursors := s.cursors[profile := selected[0]],
           cursor := if s.cursor.Some? && s.cursor.value in selected then None else s.cursor)], Return(0))
  }

  /** The round as one value: what is selected, and all that it meets. */
  datatype Plan = Plan(groups: seq<string>, wanted: set<string>, profile: string, force: bool, tree: Got<string>,
                       scripts: seq<Script>, expected: seq<Got<string>>, treeEnd: Got<string>)

  /** The wanted groups in the manifest's order. */
  function Selected(groups: seq<string>, wanted: set<string>): seq<string> {
    if groups == [] then []
    else (if groups[0] in wanted then [groups[0]] else []) + Selected(groups[1..], wanted)
  }

  function IndexOf(names: seq<string>, name: string): nat {
    if names == [] || names[0] == name then 0 else 1 + IndexOf(names[1..], name)
  }

  /** The selection rotated to start at the cursor. */
  function Rotated(names: seq<string>, name: string): seq<string> {
    var i := if IndexOf(names, name) <= |names| then IndexOf(names, name) else 0;
    names[i..] + names[..i]
  }

  function StartAt(s: State, profile: string, force: bool, selected: seq<string>): string
    requires selected != []
  {
    var cursor := if s.cursor.Some? && s.cursor.value != "" then s.cursor.value
                  else if profile in s.cursors then s.cursors[profile] else selected[0];
    if force || cursor !in selected then selected[0] else cursor
  }

  function Forgotten(s: State, profile: string, selected: seq<string>): State {
    var gone := set n | n in selected;
    s.(groups := s.groups - gone, passes := s.passes - gone, rounds := s.rounds - {profile})
  }

  predicate Sane(p: Plan) {
    && (forall i, j | 0 <= i < j < |p.groups| :: p.groups[i] != p.groups[j])
    && p.wanted != {} && (forall n | n in p.wanted :: n in p.groups) && p.tree.Got?
  }

  /** The turns in order, and the check behind them. */
  function RunFrom(digest: string -> string, s: State, p: Plan, selected: seq<string>, ordered: seq<string>): Course
    requires |p.scripts| == |ordered| && |selected| == |p.expected| && selected != [] && p.tree.Got?
  {
    var turns := Turns(digest, s, p.profile, p.force, p.tree.value, ordered, p.scripts);
    if turns.1 != Continue then turns
    else
      var end := Complete(digest, Last(s, turns.0), p.profile, p.tree.value, selected, p.expected, p.treeEnd);
      (turns.0 + end.0, end.1, turns.2)
  }

  /** `run`: what it writes, how it ends, and the successful executions in it. */
  function Run(digest: string -> string, s: State, p: Plan): Course
    requires |p.scripts| == |Selected(p.groups, p.wanted)| == |p.expected|
  {
    var selected := Selected(p.groups, p.wanted);
    if !Sane(p) || selected == [] then ([], Abort, {})
    else
      var start, cleared := StartAt(s, p.profile, p.force, selected), Cleared(s, p);
      RotationLength(selected, start);
      var rest := RunFrom(digest, Last(s, cleared), p, selected, Rotated(selected, start));
      (cleared + rest.0, rest.1, rest.2)
  }

  /** What a forced run writes first. */
  function Cleared(s: State, p: Plan): seq<State> {
    if p.force then [Forgotten(s, p.profile, Selected(p.groups, p.wanted))] else []
  }

  lemma {:induction false} IndexBounds(names: seq<string>, name: string)
    ensures IndexOf(names, name) <= |names|
    ensures name in names ==> IndexOf(names, name) < |names| && names[IndexOf(names, name)] == name
  {
    if names != [] && names[0] != name { IndexBounds(names[1..], name); }
  }

  lemma {:induction false} RotationLength(names: seq<string>, name: string)
    ensures |Rotated(names, name)| == |names|
  {}

  lemma {:induction false} SelectionIsExact(groups: seq<string>, wanted: set<string>)
    ensures forall n :: n in Selected(groups, wanted) <==> n in groups && n in wanted
    ensures (forall i, j | 0 <= i < j < |groups| :: groups[i] != groups[j]) ==>
              forall i, j | 0 <= i < j < |Selected(groups, wanted)| ::
                  Selected(groups, wanted)[i] != Selected(groups, wanted)[j]
  {
    if groups != [] {
      SelectionIsExact(groups[1..], wanted);
      if forall i, j | 0 <= i < j < |groups| :: groups[i] != groups[j] {
        assert forall i, j | 0 <= i < j < |groups[1..]| :: groups[1..][i] != groups[1..][j] by {
          forall i, j | 0 <= i < j < |groups[1..]| ensures groups[1..][i] != groups[1..][j] {
            assert groups[i + 1] != groups[j + 1];
          }
        }
        assert groups[0] !in groups[1..];
      }
    }
  }

  /** The round starts at the cursor and visits every wanted group once. */
  lemma {:induction false} RotationCoversSelection(s: State, p: Plan, name: string)
    requires Sane(p) && Selected(p.groups, p.wanted) != []
    ensures
      var selected := Selected(p.groups, p.wanted);
      var ordered := Rotated(selected, StartAt(s, p.profile, p.force, selected));
      && ordered[0] == StartAt(s, p.profile, p.force, selected)
      && multiset(ordered)[name] == if name in p.wanted then 1 else 0
  {
    var selected := Selected(p.groups, p.wanted);
    var start := StartAt(s, p.profile, p.force, selected);
    SelectionIsExact(p.groups, p.wanted);
    IndexBounds(selected, start);
    var i := IndexOf(selected, start);
    assert selected == selected[..i] + selected[i..];
    assert multiset(Rotated(selected, start)) == multiset(selected);
    OnceEach(selected, name);
  }

  lemma {:induction false} OnceEach(names: seq<string>, name: string)
    requires forall i, j | 0 <= i < j < |names| :: names[i] != names[j]
    ensures multiset(names)[name] == if name in names then 1 else 0
  {
    if names != [] {
      assert names == [names[0]] + names[1..];
      assert forall i, j | 0 <= i < j < |names[1..]| :: names[1..][i] != names[1..][j] by {
        forall i, j | 0 <= i < j < |names[1..]| ensures names[1..][i] != names[1..][j] {
          assert names[i + 1] != names[j + 1];
        }
      }
      OnceEach(names[1..], name);
      assert names[0] !in names[1..];
    }
  }

  /** No script dies between a success and its checks. */
  predicate Checked(tree: string, xs: seq<Script>) {
    forall x | x in xs :: !DiesUnchecked(tree, x)
  }

  lemma {:induction false} Joined(x: seq<State>, y: seq<State>, known: set<Success>, more: set<Success>)
    requires AllTrusted(x, known) && AllTrusted(y, known + more)
    ensures AllTrusted(x + y, known + more)
  {
    forall i | 0 <= i < |x| ensures Trusted(x[i], known + more) { MoreKnown(x[i], known, more); }
  }

  lemma {:induction false} TurnsKeepTrust(digest: string -> string, s: State, known: set<Success>, profile: string,
          force: bool, tree: string,
                                          names: seq<string>, xs: seq<Script>)
    requires |xs| == |names| && Trusted(s, known) && Checked(tree, xs)
    ensures var r := Turns(digest, s, profile, force, tree, names, xs); AllTrusted(r.0, known + r.2)
    decreases names
  {
    if names != [] {
      assert xs[0] in xs && forall x | x in xs[1..] :: x in xs;
      var r := Turn(digest, s, profile, force, tree, names[0], xs[0]);
      TurnKeepsTrust(digest, s, known, profile, force, tree, names[0], xs[0]);
      MoreKnown(s, known, r.2);
      if r.1 == Continue {
        var rest := Turns(digest, Last(s, r.0), profile, force, tree, names[1..], xs[1..]);
        TurnsKeepTrust(digest, Last(s, r.0), known + r.2, profile, force, tree, names[1..], xs[1..]);
        Joined(r.0, rest.0, known + r.2, rest.2);
        assert known + r.2 + rest.2 == known + (r.2 + rest.2);
      }
    }
  }

  lemma {:induction false} FirstOpenMeans(s: State, selected: seq<string>, expected: seq<Got<string>>)
    requires |expected| == |selected|
    ensures FirstOpen(s, selected, expected) <= |selected|
    ensures forall i | 0 <= i < FirstOpen(s, selected, expected) ::
            expected[i].Got? &&
            HoldsPass(s, selected[i], expected[i].value)
    ensures FirstOpen(s, selected, expected) < |selected| ==>
              var i := FirstOpen(s, selected, expected);
                  expected[i].Got? ==> !HoldsPass(s, selected[i], expected[i].value)
  {
    if selected != [] { FirstOpenMeans(s, selected[1..], expected[1..]); }
  }

  lemma {:induction false} CompleteKeepsTrust(digest: string -> string, s: State, known: set<Success>,
          profile: string, tree: string,
          selected: seq<string>,
                           expected: seq<Got<string>>, treeEnd: Got<string>)
    requires |expected| == |selected| && selected != [] && Trusted(s, known)
    ensures AllTrusted(Complete(digest, s, profile, tree, selected, expected, treeEnd).0, known)
  {}

  lemma {:induction false} ForgottenKeepsTrust(s: State, known: set<Success>, profile: string, selected: seq<string>)
    requires Trusted(s, known)
    ensures Trusted(Forgotten(s, profile, selected), known)
  {}

  lemma {:induction false} RunFromKeepsTrust(digest: string -> string, s: State, known: set<Success>, p: Plan,
          selected: seq<string>,
          ordered: seq<string>)
    requires |p.scripts| == |ordered| && |selected| == |p.expected| && selected != [] && p.tree.Got?
    requires Trusted(s, known) && Checked(p.tree.value, p.scripts)
    ensures var r := RunFrom(digest, s, p, selected, ordered); AllTrusted(r.0, known + r.2)
  {
    var turns := Turns(digest, s, p.profile, p.force, p.tree.value, ordered, p.scripts);
    TurnsKeepTrust(digest, s, known, p.profile, p.force, p.tree.value, ordered, p.scripts);
    MoreKnown(s, known, turns.2);
    var ended := Last(s, turns.0);
    CompleteKeepsTrust(digest, ended, known + turns.2, p.profile, p.tree.value, selected, p.expected, p.treeEnd);
    Joined(turns.0, Complete(digest, ended, p.profile, p.tree.value, selected, p.expected, p.treeEnd).0, known +
        turns.2, {});
    assert known + turns.2 + {} == known + turns.2;
  }

  lemma {:induction false} RunKeepsTrust(digest: string -> string, s: State, known: set<Success>, p: Plan)
    requires |p.scripts| == |Selected(p.groups, p.wanted)| == |p.expected|
    requires Trusted(s, known) && (p.tree.Got? ==> Checked(p.tree.value, p.scripts))
    ensures var r := Run(digest, s, p); AllTrusted(r.0, known + r.2)
  {
    var selected := Selected(p.groups, p.wanted);
    if Sane(p) && selected != [] {
      var start, cleared := StartAt(s, p.profile, p.force, selected), Cleared(s, p);
      RotationLength(selected, start);
      ForgottenKeepsTrust(s, known, p.profile, selected);
      RunFromKeepsTrust(digest, Last(s, cleared), known, p, selected, Rotated(selected, start));
      var rest := RunFrom(digest, Last(s, cleared), p, selected, Rotated(selected, start));
      Joined(cleared, rest.0, known, rest.2);
    }
  }

  lemma {:induction false} LastJoined(s: State, x: seq<State>, y: seq<State>)
    ensures Last(s, x + y) == Last(Last(s, x), y)
  {}

  lemma {:induction false} WrittenJoined(x: seq<State>, y: seq<State>, z: seq<State>)
    ensures x + y + z == x + (y + z)
  {}

  lemma {:induction false} ZeroIsCompleteFrom(digest: string -> string, s: State, p: Plan, selected: seq<string>,
          ordered: seq<string>)
    requires |p.scripts| == |ordered| && |selected| == |p.expected| && selected != [] && p.tree.Got?
    requires RunFrom(digest, s, p, selected, ordered).1 == Return(0)
    ensures RunFrom(digest, s, p, selected, ordered).0 != []
    ensures var last := Last(s, RunFrom(digest, s, p, selected, ordered).0);
            forall i | 0 <= i < |p.expected| :: p.expected[i].Got? && HoldsPass(last, selected[i], p.expected[i].value)
  {
    NoTurnReturnsZero(digest, s, p.profile, p.force, p.tree.value, ordered, p.scripts);
    var turns := Turns(digest, s, p.profile, p.force, p.tree.value, ordered, p.scripts);
    FirstOpenMeans(Last(s, turns.0), selected, p.expected);
  }

  lemma {:induction false} ZeroIsComplete(digest: string -> string, s: State, p: Plan)
    requires |p.scripts| == |Selected(p.groups, p.wanted)| == |p.expected| && Run(digest, s, p).1 == Return(0)
    ensures Run(digest, s, p).0 != []
    ensures var last := Last(s, Run(digest, s, p).0);
            forall i | 0 <= i < |p.expected| :: p.expected[i].Got? &&
                HoldsPass(last, Selected(p.groups, p.wanted)[i], p.expected[i].value)
  {
    var selected := Selected(p.groups, p.wanted);
    var start, cleared := StartAt(s, p.profile, p.force, selected), Cleared(s, p);
    RotationLength(selected, start);
    ZeroIsCompleteFrom(digest, Last(s, cleared), p, selected, Rotated(selected, start));
    LastJoined(s, cleared, RunFrom(digest, Last(s, cleared), p, selected, Rotated(selected, start)).0);
  }

  lemma {:induction false} NoTurnReturnsZero(digest: string -> string, s: State, profile: string, force: bool,
          tree: string, names: seq<string>, xs: seq<Script>)
    requires |xs| == |names|
    ensures Turns(digest, s, profile, force, tree, names, xs).1 != Return(0)
    decreases names
  {
    if names != [] {
      var r := Turn(digest, s, profile, force, tree, names[0], xs[0]);
      if r.1 == Continue { NoTurnReturnsZero(digest, Last(s, r.0), profile, force, tree, names[1..], xs[1..]); }
    }
  }

  /** Rounds are sound: when `run` returns 0, every wanted group has a
      successful execution, in this run or an earlier one, whose inputs before
      and after equal the inputs recomputed at the end. */
  lemma {:induction false} RoundIsSound(digest: string -> string, s: State, known: set<Success>, p: Plan, i: nat)
    requires |p.scripts| == |Selected(p.groups, p.wanted)| == |p.expected|
    requires Trusted(s, known) && (p.tree.Got? ==> Checked(p.tree.value, p.scripts))
    requires Run(digest, s, p).1 == Return(0) && i < |p.expected|
    ensures p.expected[i].Got?
    ensures Success(Selected(p.groups, p.wanted)[i], p.expected[i].value, p.expected[i].value) in known +
            Run(digest, s, p).2
  {
    RunKeepsTrust(digest, s, known, p);
    ZeroIsComplete(digest, s, p);
    var r := Run(digest, s, p);
    assert Trusted(r.0[|r.0| - 1], known + r.2);
  }

  // --------------------------------------------------------------- all rounds

  /** Before its last write a turn records no pass that was not founded, and in
      its last one none but its own. */
  lemma {:induction false} TurnWritesTrusted(digest: string -> string, s: State, known: set<Success>, profile: string,
          force: bool,
          tree: string, name: string, x: Script)
    requires Trusted(s, known) && !DiesUnchecked(tree, x)
    ensures var r := Turn(digest, s, profile, force, tree, name, x);
            AllTrusted(r.0, known + r.2) && forall i | 0 <= i < |r.0| - 1 :: Trusted(r.0[i], known)
  {
    var pointed := PointAt(s, profile, name);
    TurnKeepsTrust(digest, s, known, profile, force, tree, name, x);
    if x.inputs.Got? {
      SetKeepsTrust(pointed, known, name, Record(Running, x.inputs.value));
      var running, prepared := SetRecord(pointed, name, Record(Running, x.inputs.value)),
          Prepared(tree, x.inputs.value, x.prepare);
      if prepared.Ok? { SetKeepsTrust(running, known, name, Record(Running, prepared.value)); }
    }
  }

  /** The successful executions of a turn `r` that made its last write within
      the first `n`, and of what follows it. */
  function SeenBy(r: Course, n: nat, later: nat -> set<Success>): set<Success> {
    if n < |r.0| then {} else if r.1 != Continue then r.2 else r.2 + later(n - |r.0|)
  }

  /** The successful executions that the first `n` writes of the turns record:
      those of the turns that made their last write. */
  function Witnessed(digest: string -> string, s: State, profile: string, force: bool, tree: string,
          names: seq<string>, xs: seq<Script>)
    : nat -> set<Success>
    requires |xs| == |names|
    decreases names
  {
    if names == [] then (n: nat) => {}
    else
      var r := Turn(digest, s, profile, force, tree, names[0], xs[0]);
      var later := Witnessed(digest, Last(s, r.0), profile, force, tree, names[1..], xs[1..]);
      (n: nat) => SeenBy(r, n, later)
  }

  /** Once all writes are made, all successful executions are seen. */
  ghost predicate SeesAll(c: Course, seen: nat -> set<Success>) {
    forall n: nat | n >= |c.0| :: seen(n) == c.2
  }

  /** What each write records is founded on executions that ended before it. */
  ghost predicate Founded(c: Course, known: set<Success>, seen: nat -> set<Success>) {
    forall n: nat | 0 < n <= |c.0| :: Trusted(c.0[n - 1], known + seen(n))
  }

  lemma {:induction false} SeesAllThen(r: Course, more: Course, later: nat -> set<Success>, seen: nat -> set<Success>)
    requires (forall n: nat :: seen(n) == SeenBy(r, n, later)) && (r.1 == Continue ==> SeesAll(more, later))
    ensures SeesAll(Then(r, more), seen)
  {}

  lemma {:induction false} FoundedThen(r: Course, more: Course, known: set<Success>, later: nat -> set<Success>,
          seen: nat -> set<Success>)
    requires (forall n: nat :: seen(n) == SeenBy(r, n, later))
    requires forall i | 0 <= i < |r.0| - 1 :: Trusted(r.0[i], known)
    requires AllTrusted(r.0, known + r.2) && (r.1 == Continue ==> Founded(more, known + r.2, later))
    ensures Founded(Then(r, more), known, seen)
  {
    forall n: nat | 0 < n <= |Then(r, more).0| ensures Trusted(Then(r, more).0[n - 1], known + seen(n)) {
      if n < |r.0| {
        MoreKnown(r.0[n - 1], known, seen(n));
      } else if n == |r.0| {
        MoreKnown(r.0[n - 1], known + r.2, seen(n));
        assert known + r.2 + seen(n) == known + seen(n);
      } else {
        assert known + r.2 + later(n - |r.0|) == known + seen(n);
      }
    }
  }

  lemma {:induction false} TurnsAreFounded(digest: string -> string, s: State, known: set<Success>, profile: string,
          force: bool, tree: string,
                                           names: seq<string>, xs: seq<Script>)
    requires |xs| == |names| && Trusted(s, known) && Checked(tree, xs)
    ensures Founded(Turns(digest, s, profile, force, tree, names, xs), known,
            Witnessed(digest, s, profile, force, tree, names, xs))
    ensures SeesAll(Turns(digest, s, profile, force, tree, names, xs),
            Witnessed(digest, s, profile, force, tree, names, xs))
    decreases names
  {
    if names != [] {
      assert xs[0] in xs && forall x | x in xs[1..] :: x in xs;
      var r := Turn(digest, s, profile, force, tree, names[0], xs[0]);
      TurnWritesTrusted(digest, s, known, profile, force, tree, names[0], xs[0]);
      var last, names', xs' := Last(s, r.0), names[1..], xs[1..];
      if r.1 == Continue { TurnsAreFounded(digest, last, known + r.2, profile, force, tree, names', xs'); }
      FoundedThen(r, Turns(digest, last, profile, force, tree, names', xs'), known,
                  Witnessed(digest, last, profile, force, tree, names', xs'),
                  Witnessed(digest, s, profile, force, tree, names, xs));
      SeesAllThen(r, Turns(digest, last, profile, force, tree, names', xs'),
                  Witnessed(digest, last, profile, force, tree, names', xs'),
                  Witnessed(digest, s, profile, force, tree, names, xs));
    }
  }

  /** The successful executions that the first `n` writes of a run record. */
  function WitnessedRun(digest: string -> string, s: State, p: Plan, n: nat): set<Success>
    requires |p.scripts| == |Selected(p.groups, p.wanted)| == |p.expected|
  {
    var selected, cleared := Selected(p.groups, p.wanted), Cleared(s, p);
    if !Sane(p) || selected == [] || n < |cleared| then {}
    else
      RotationLength(selected, StartAt(s, p.profile, p.force, selected));
      Witnessed(digest, Last(s, cleared), p.profile, p.force, p.tree.value,
          Rotated(selected, StartAt(s, p.profile, p.force, selected)),
                p.scripts)(n - |cleared|)
  }

  lemma {:induction false} RunFromIsFounded(digest: string -> string, s: State, known: set<Success>, p: Plan,
          selected: seq<string>,
          ordered: seq<string>)
    requires |p.scripts| == |ordered| && |selected| == |p.expected| && selected != [] && p.tree.Got?
    requires Trusted(s, known) && Checked(p.tree.value, p.scripts)
    ensures Founded(RunFrom(digest, s, p, selected, ordered), known,
            Witnessed(digest, s, p.profile, p.force, p.tree.value, ordered, p.scripts))
  {
    TurnsAreFounded(digest, s, known, p.profile, p.force, p.tree.value, ordered, p.scripts);
    RunFromKeepsTrust(digest, s, known, p, selected, ordered);
  }

  /** A run as what a forced one clears, followed by the turns. */
  lemma {:induction false} RunUnfolds(digest: string -> string, s: State, p: Plan)
    requires |p.scripts| == |Selected(p.groups, p.wanted)| == |p.expected| && Sane(p) &&
             Selected(p.groups, p.wanted) != []
    ensures
      var selected, cleared := Selected(p.groups, p.wanted), Cleared(s, p);
      var ordered := Rotated(selected, StartAt(s, p.profile, p.force, selected));
      && |ordered| == |selected|
      && Run(digest, s, p).0 == cleared + RunFrom(digest, Last(s, cleared), p, selected, ordered).0
      && forall n: nat :: WitnessedRun(digest, s, p, n) ==
           if n < |cleared| then {}
           else Witnessed(digest, Last(s, cleared), p.profile, p.force, p.tree.value, ordered, p.scripts)(n - |cleared|)
  {
    RotationLength(Selected(p.groups, p.wanted), StartAt(s, p.profile, p.force, Selected(p.groups, p.wanted)));
  }

  lemma {:induction false} ClearedKeepsTrust(s: State, known: set<Success>, p: Plan)
    requires Trusted(s, known)
    ensures AllTrusted(Cleared(s, p), known) && Trusted(Last(s, Cleared(s, p)), known)
  {
    ForgottenKeepsTrust(s, known, p.profile, Selected(p.groups, p.wanted));
  }

  /** The n-th write behind some writes that need no further execution. */
  lemma {:induction false} FoundedBehind(cleared: seq<State>, c: Course, known: set<Success>,
          seen: nat -> set<Success>, n: nat,
          witnessed: set<Success>)
    requires AllTrusted(cleared, known) && Founded(c, known, seen) && 0 < n <= |cleared + c.0|
    requires n > |cleared| ==> witnessed == seen(n - |cleared|)
    ensures Trusted((cleared + c.0)[n - 1], known + witnessed)
  {
    if n <= |cleared| { MoreKnown(cleared[n - 1], known, witnessed); }
  }

  lemma {:induction false} RunIsFounded(digest: string -> string, s: State, known: set<Success>, p: Plan, n: nat)
    requires |p.scripts| == |Selected(p.groups, p.wanted)| == |p.expected|
    requires Trusted(s, known) && (p.tree.Got? ==> Checked(p.tree.value, p.scripts)) && 0 < n <= |Run(digest, s, p).0|
    ensures Trusted(Run(digest, s, p).0[n - 1], known + WitnessedRun(digest, s, p, n))
  {
    var selected, cleared := Selected(p.groups, p.wanted), Cleared(s, p);
    var ordered := Rotated(selected, StartAt(s, p.profile, p.force, selected));
    RunUnfolds(digest, s, p);
    ClearedKeepsTrust(s, known, p);
    RunFromIsFounded(digest, Last(s, cleared), known, p, selected, ordered);
    FoundedBehind(cleared, RunFrom(digest, Last(s, cleared), p, selected, ordered), known,
                  Witnessed(digest, Last(s, cleared), p.profile, p.force, p.tree.value, ordered, p.scripts),
                  n, WitnessedRun(digest, s, p, n));
  }

  /** A run that crashed, was interrupted or ended after `writes` of its writes;
      `readable` tells whether the next run can read the state file. */
  datatype Past = Past(plan: Plan, writes: nat, readable: bool)

  predicate Possible(h: Past) {
    |h.plan.scripts| == |Selected(h.plan.groups, h.plan.wanted)| == |h.plan.expected| &&
    (h.plan.tree.Got? ==> Checked(h.plan.tree.value, h.plan.scripts))
  }

  /** How many writes of the run were made. */
  function Made(digest: string -> string, s: State, h: Past): nat
    requires Possible(h)
  {
    var all := |Run(digest, s, h.plan).0|;
    if h.writes <= all then h.writes else all
  }

  function Left(digest: string -> string, s: State, h: Past): State
    requires Possible(h)
  {
    var n := Made(digest, s, h);
    if !h.readable then EMPTY else if n == 0 then s else Run(digest, s, h.plan).0[n - 1]
  }

  /** The state file after a history of runs, and the successful executions that
      ended before the crash of their run. */
  function Since(digest: string -> string, history: seq<Past>): (State, set<Success>)
    requires forall h | h in history :: Possible(h)
  {
    if history == [] then (EMPTY, {})
    else
      var before, h := Since(digest, history[..|history| - 1]), history[|history| - 1];
      (Left(digest, before.0, h), before.1 + WitnessedRun(digest, before.0, h.plan, Made(digest, before.0, h)))
  }

  lemma {:induction false} HistoryKeepsTrust(digest: string -> string, history: seq<Past>)
    requires forall h | h in history :: Possible(h)
    ensures Trusted(Since(digest, history).0, Since(digest, history).1)
  {
    if history != [] {
      assert Possible(history[|history| - 1]) by { assert history[|history| - 1] in history; }
      HistoryKeepsTrust(digest, history[..|history| - 1]);
      var before, h := Since(digest, history[..|history| - 1]), history[|history| - 1];
      var n := Made(digest, before.0, h);
      MoreKnown(before.0, before.1, WitnessedRun(digest, before.0, h.plan, n));
      if n > 0 { RunIsFounded(digest, before.0, before.1, h.plan, n); }
    }
  }

  /** Soundness over any history: the sources and the environment may have
      changed at every step, and earlier runs may have crashed after any write. */
  lemma {:induction false} RoundsAreSound(digest: string -> string, history: seq<Past>, p: Plan, i: nat)
    requires forall h | h in history :: Possible(h)
    requires |p.scripts| == |Selected(p.groups, p.wanted)| == |p.expected|
    requires (p.tree.Got? ==> Checked(p.tree.value, p.scripts)) && i < |p.expected|
    ensures
      var r := Run(digest, Since(digest, history).0, p);
      r.1 == Return(0) ==>
        && p.expected[i].Got?
        && Success(Selected(p.groups, p.wanted)[i], p.expected[i].value, p.expected[i].value) in Since(digest,
            history).1 + r.2
  {
    if Run(digest, Since(digest, history).0, p).1 == Return(0) {
      HistoryKeepsTrust(digest, history);
      RoundIsSound(digest, Since(digest, history).0, Since(digest, history).1, p, i);
    }
  }

  /** The input that shows the condition is needed: a command succeeds, a
      foreign exception cuts off the checks behind it, and the next round skips
      the group and completes, although no execution was ever confirmed. */
  lemma {:induction false} PassWithoutSuccess(digest: string -> string)
    ensures
      var first := Script(Got("t"), Got("i"), None, Got(0), Died, Raised);
      var again := Script(Got("t"), Got("i"), None, Raised, Raised, Raised);
      var r := Turn(digest, EMPTY, "full", false, "t", "g", first);
      var q := Turn(digest, Last(EMPTY, r.0), "full", false, "t", "g", again);
      && r.1 == Abort && r.2 == {} && q.1 == Continue && q.2 == {}
      && Complete(digest, Last(Last(EMPTY, r.0), q.0), "full", "t", ["g"], [Got("i")], Got("t")).1 == Return(0)
  {
    var first := Script(Got("t"), Got("i"), None, Got(0), Died, Raised);
    var again := Script(Got("t"), Got("i"), None, Raised, Raised, Raised);
    var r := Turn(digest, EMPTY, "full", false, "t", "g", first);
    var s := Last(EMPTY, r.0);
    assert s.passes["g"][digest("i")] == Record(Passed, "i");
    assert CachedPass(digest, PointAt(s, "full", "g"), "g", "i") == Some(Record(Passed, "i"));
    var q := Turn(digest, s, "full", false, "t", "g", again);
    FirstOpenMeans(Last(s, q.0), ["g"], [Got("i")]);
  }

  // --------------------------------------------------------- the state object

  /** A course is what was done so far followed by the rest. */
  ghost predicate Follows(all: Course, saw: seq<State>, proof: set<Success>, rest: Course) {
    all.0 == saw + rest.0 && all.1 == rest.1 && all.2 == proof + rest.2
  }

  lemma {:induction false} FollowsOn(all: Course, saw: seq<State>, proof: set<Success>, rest: Course, r: Course,
          more: Course)
    requires Follows(all, saw, proof, rest)
    requires rest == Then(r, more)
    ensures r.1 == Continue ==> Follows(all, saw + r.0, proof + r.2, more)
    ensures r.1 != Continue ==> all == (saw + r.0, r.1, proof + r.2)
  {}

  lemma {:induction false} TurnsUnfold(digest: string -> string, s: State, profile: string, force: bool, tree: string,
          names: seq<string>, xs: seq<Script>, i: nat)
    requires |xs| == |names| && i < |names|
    ensures var r := Turn(digest, s, profile, force, tree, names[i], xs[i]);
            var rest := Turns(digest, Last(s, r.0), profile, force, tree, names[i + 1..], xs[i + 1..]);
            Turns(digest, s, profile, force, tree, names[i..], xs[i..]) == Then(r, rest)
  {
    assert names[i..][1..] == names[i + 1..] && xs[i..][1..] == xs[i + 1..];
  }

  class Validation {
    const digest: string -> string
    var state: State
    var disk: State
    ghost var written: seq<State>

    /** `load_state`: an unreadable or missing file trusts nothing. */
    constructor (digest: string -> string, stored: Option<State>)
      ensures this.digest == digest && state == disk == (if stored.Some? then stored.value else EMPTY) && written == []
    {
      this.digest := digest;
      state := if stored.Some? then stored.value else EMPTY;
      disk := if stored.Some? then stored.value else EMPTY;
      written := [];
    }

    method AtomicWrite()
      modifies `disk, `written
      ensures disk == state && written == old(written) + [state]
    {
      disk := state;
      written := written + [state];
    }

    /** The tail of an attempt that ended as `e`. */
    method Finally(name: string, inputs: string, e: Ending)
      modifies this
      ensures state == Recorded(digest, old(state), name, inputs, e) && written == old(written) + [state] &&
              disk == state
    {
      if e.interrupted {
        state := SetRecord(state, name, Record(Stopped, inputs));
      } else if e.result != 0 {
        state := SetRecord(state, name, Record(Failed, inputs));
      } else {
        var r := Record(Passed, e.inputs);
        state := SetRecord(state, name, r);
        var passes := if name in state.passes then state.passes[name] else map[];
        state := state.(passes := state.passes[name := passes[digest(e.inputs) := r]]);
      }
      AtomicWrite();
    }

    method PointCursor(profile: string, name: string)
      modifies this
      ensures state == PointAt(old(state), profile, name) && written == old(written) + [state] && disk == state
    {
      state := state.(cursors := state.cursors[profile := name], cursor := Some(name),
          rounds := state.rounds - {profile});
      AtomicWrite();
    }

    method RunAttempt(tree: string, name: string, current: string, x: Script) returns (flow: Flow,
            ghost proof: set<Success>)
      modifies this
      ensures var r := Attempt(digest, old(state), tree, name, current, x);
              written == old(written) + r.0 && flow == r.1 && proof == r.2 && state == disk == Last(old(state), r.0)
    {
      state := SetRecord(state, name, Record(Running, current));
      AtomicWrite();
      var prepared := Prepared(tree, current, x.prepare);
      proof := {};
      if prepared.Err? {
        Finally(name, current, prepared.error);
        return FlowOf(prepared.error), proof;
      }
      state := SetRecord(state, name, Record(Running, prepared.value));
      if x.prepare.Some? { AtomicWrite(); }
      var e := Executed(tree, current, prepared.value, x);
      if x.exit == Got(0) && x.treeAfter == Got(tree) && x.after == Got(prepared.value) {
        proof := {Success(name, prepared.value, prepared.value)};
      }
      Finally(name, prepared.value, e);
      return FlowOf(e), proof;
    }

    method RunGroup(profile: string, force: bool, tree: string, name: string, x: Script) returns (flow: Flow,
            ghost proof: set<Success>)
      modifies this
      ensures var r := Turn(digest, old(state), profile, force, tree, name, x);
              written == old(written) + r.0 && flow == r.1 && proof == r.2 && state == disk == Last(old(state), r.0)
    {
      PointCursor(profile, name);
      proof := {};
      if x.tree != Got(tree) || !x.inputs.Got? { return Abort, proof; }
      var cached := CachedPass(digest, state, name, x.inputs.value);
      if !force && cached.Some? {
        state := SetRecord(state, name, cached.value);
        AtomicWrite();
        return Continue, proof;
      }
      flow, proof := RunAttempt(tree, name, x.inputs.value, x);
    }

    /** The group at `i`, as part of the course `all` of the whole loop. */
    method RunNext(profile: string, force: bool, tree: string, names: seq<string>, xs: seq<Script>, i: nat,
            ghost all: Course,
                   ghost saw: seq<State>, ghost proof: set<Success>) returns (flow: Flow, ghost saw': seq<State>,
                   ghost proof': set<Success>)
      requires |xs| == |names| && i < |names|
      requires Follows(all, saw, proof, Turns(digest, state, profile, force, tree, names[i..], xs[i..]))
      modifies this
      ensures saw <= saw' && written == old(written) + saw'[|saw|..] && state == disk == Last(old(state), saw'[|saw|..])
      ensures flow == Continue ==> Follows(all, saw', proof',
              Turns(digest, state, profile, force, tree, names[i + 1..], xs[i + 1..]))
      ensures flow != Continue ==> all == (saw', flow, proof')
    {
      ghost var r := Turn(digest, state, profile, force, tree, names[i], xs[i]);
      TurnsUnfold(digest, state, profile, force, tree, names, xs, i);
      FollowsOn(all, saw, proof, Turns(digest, state, profile, force, tree, names[i..], xs[i..]), r,
                Turns(digest, Last(state, r.0), profile, force, tree, names[i + 1..], xs[i + 1..]));
      saw', proof' := saw + r.0, proof + r.2;
      assert saw'[|saw|..] == r.0;
      ghost var more;
      flow, more := RunGroup(profile, force, tree, names[i], xs[i]);
    }

    method RunGroups(profile: string, force: bool, tree: string, names: seq<string>,
            xs: seq<Script>) returns (flow: Flow, ghost proof: set<Success>)
      requires |xs| == |names| && state == disk
      modifies this
      ensures var r := Turns(digest, old(state), profile, force, tree, names, xs);
              written == old(written) + r.0 && flow == r.1 && proof == r.2 && state == disk == Last(old(state), r.0)
    {
      proof := {};
      ghost var saw: seq<State> := [];
      ghost var all := Turns(digest, state, profile, force, tree, names, xs);
      assert names[0..] == names && xs[0..] == xs && Follows(all, [], {}, all);
      for i := 0 to |names|
        invariant state == disk == Last(old(state), saw) && written == old(written) + saw
        invariant Follows(all, saw, proof, Turns(digest, state, profile, force, tree, names[i..], xs[i..]))
      {
        ghost var before := saw;
        flow, saw, proof := RunNext(profile, force, tree, names, xs, i, all, saw, proof);
        assert saw == before + saw[|before|..];
        LastJoined(old(state), before, saw[|before|..]);
        WrittenJoined(old(written), before, saw[|before|..]);
        if flow != Continue { return; }
      }
      assert all == (saw, Continue, proof) by {
        assert names[|names|..] == [] && saw + [] == saw && proof + {} == proof;
      }
      return Continue, proof;
    }

    method FindOpen(selected: seq<string>, expected: seq<Got<string>>) returns (i: nat)
      requires |expected| == |selected|
      ensures i == FirstOpen(state, selected, expected)
    {
      i := 0;
      while i < |selected|
        invariant i <= |selected| && FirstOpen(state, selected, expected) == i +
                  FirstOpen(state, selected[i..], expected[i..])
      {
        if !expected[i].Got? || !HoldsPass(state, selected[i], expected[i].value) { return; }
        i := i + 1;
      }
    }

    method Conclude(profile: string, tree: string, selected: seq<string>, expected: seq<Got<string>>,
            treeEnd: Got<string>) returns (flow: Flow)
      requires |expected| == |selected| && selected != [] && state == disk
      modifies this
      ensures var r := Complete(digest, old(state), profile, tree, selected, expected, treeEnd);
              written == old(written) + r.0 && flow == r.1 && state == disk == Last(old(state), r.0)
    {
      var i := FindOpen(selected, expected);
      FirstOpenMeans(state, selected, expected);
      if i < |selected| {
        if !expected[i].Got? { return Abort; }
        state := state.(cursors := state.cursors[profile := selected[i]], cursor := Some(selected[i]));
        AtomicWrite();
        return Return(1);
      }
      if treeEnd != Got(tree) { return Abort; }
      state := state.(rounds := state.rounds[profile := Round(tree, KeysOf(digest, selected, expected))],
                      cursors := state.cursors[profile := selected[0]]);
      if state.cursor.Some? && state.cursor.value in selected { state := state.(cursor := None); }
      AtomicWrite();
      return Return(0);
    }

    method RunOrdered(p: Plan, selected: seq<string>, ordered: seq<string>) returns (flow: Flow,
            ghost proof: set<Success>)
      requires |p.scripts| == |ordered| && |selected| == |p.expected| && selected != [] && p.tree.Got? && state == disk
      modifies this
      ensures var r := RunFrom(digest, old(state), p, selected, ordered);
              written == old(written) + r.0 && flow == r.1 && proof == r.2 && state == disk == Last(old(state), r.0)
    {
      ghost var turns := Turns(digest, state, p.profile, p.force, p.tree.value, ordered, p.scripts);
      flow, proof := RunGroups(p.profile, p.force, p.tree.value, ordered, p.scripts);
      if flow != Continue { return; }
      LastJoined(old(state), turns.0,
          Complete(digest, state, p.profile, p.tree.value, selected, p.expected, p.treeEnd).0);
      flow := Conclude(p.profile, p.tree.value, selected, p.expected, p.treeEnd);
    }

    method Clear(p: Plan)
      requires state == disk
      modifies this
      ensures written == old(written) + Cleared(old(state), p) &&
              state == disk == Last(old(state), Cleared(old(state), p))
    {
      if p.force {
        state := Forgotten(state, p.profile, Selected(p.groups, p.wanted));
        AtomicWrite();
      }
    }

    method RunCleared(p: Plan, selected: seq<string>, ordered: seq<string>) returns (flow: Flow,
            ghost proof: set<Success>)
      requires |p.scripts| == |ordered| && |selected| == |p.expected| && selected != [] && p.tree.Got? && state == disk
      modifies this
      ensures var cleared := Cleared(old(state), p);
              var r := RunFrom(digest, Last(old(state), cleared), p, selected, ordered);
              written == old(written) + (cleared + r.0) && flow == r.1 && proof == r.2 &&
                  state == disk == Last(old(state), cleared + r.0)
    {
      ghost var cleared := Cleared(state, p);
      Clear(p);
      ghost var rest := RunFrom(digest, state, p, selected, ordered).0;
      LastJoined(old(state), cleared, rest);
      WrittenJoined(old(written), cleared, rest);
      flow, proof := RunOrdered(p, selected, ordered);
    }

    /** `run`. */
    method RunRound(p: Plan) returns (flow: Flow, ghost proof: set<Success>)
      requires |p.scripts| == |Selected(p.groups, p.wanted)| == |p.expected| && state == disk
      modifies this
      ensures var r := Run(digest, old(state), p);
              written == old(written) + r.0 && flow == r.1 && proof == r.2 && state == disk == Last(old(state), r.0)
    {
      var selected := Selected(p.groups, p.wanted);
      if !Sane(p) || selected == [] { return Abort, {}; }
      var start := StartAt(state, p.profile, p.force, selected);
      RotationLength(selected, start);
      flow, proof := RunCleared(p, selected, Rotated(selected, start));
    }
  }
}
