/** What one turn and the closing check of a validation round do, stated on what
    they meet, and that an undisturbed round completes. */
module RoundLaws {
  import opened Basics
  import opened LocalGate

  // ----------------------------------------------------------------- one turn

  /** The source is still the tested one and the group's inputs can be read. */
  predicate Started(tree: string, x: Script) {
    x.tree == Got(tree) && x.inputs.Got?
  }

  /** These inputs have passed before, and the round may rely on it. */
  predicate Skips(digest: string -> string, s: State, force: bool, name: string, x: Script)
    requires x.inputs.Got?
  {
    !force && name in s.passes && digest(x.inputs.value) in s.passes[name] &&
    s.passes[name][digest(x.inputs.value)] == Record(Passed, x.inputs.value)
  }

  /** The inputs in force when the command runs. */
  function InForce(x: Script): string
    requires x.inputs.Got? && (x.prepare.Some? ==> x.prepare.value.inputs.Got?)
  {
    if x.prepare.Some? then x.prepare.value.inputs.value else x.inputs.value
  }

  /** The preparation and the command succeed, and neither the source nor the
      inputs change meanwhile. */
  predicate Succeeds(tree: string, x: Script)
    requires x.inputs.Got?
  {
    && (x.prepare.Some? ==>
        x.prepare.value.exit == Got(0) && x.prepare.value.tree == Got(tree) && x.prepare.value.inputs.Got?)
    && x.exit == Got(0) && x.treeAfter == Got(tree) && x.after == Got(InForce(x))
  }

  /** The first call that does not let the attempt go on is one of this kind. */
  predicate Cut(tree: string, x: Script, interrupted: bool, died: bool) {
    if x.prepare.Some? && x.prepare.value.exit != Got(0) then Is(x.prepare.value.exit, interrupted, died)
    else if x.prepare.Some? && x.prepare.value.tree != Got(tree) then Is(x.prepare.value.tree, interrupted, died)
    else if x.prepare.Some? && !x.prepare.value.inputs.Got? then Is(x.prepare.value.inputs, interrupted, died)
    else if !x.exit.Got? then Is(x.exit, interrupted, died)
    else if !x.treeAfter.Got? then Is(x.treeAfter, interrupted, died)
    else Is(x.after, interrupted, died)
  }

  predicate Is<T>(g: Got<T>, interrupted: bool, died: bool) {
    (interrupted && g.Interrupted?) || (died && g.Died?)
  }

  /** The command alone fails, with a code of its own. */
  predicate Fails(tree: string, x: Script)
    requires x.inputs.Got?
  {
    && x.prepare.None? && x.exit.Got? && 0 < x.exit.value < 126 && x.treeAfter == Got(tree) && x.after == x.inputs
  }

  /** A turn lets the round go on exactly when the group had passed before or
      succeeds now; it ends the round with 130 exactly when a signal cut it off,
      and without a result exactly when the source changed, the inputs could not
      be read, or a foreign exception cut it off. Any other failure gives a code
      from 1 to 125, the command's own where it has one and nothing changed. */
  lemma {:induction false} TurnEndsExactly(digest: string -> string, s: State, profile: string, force: bool,
          tree: string, name: string,
          x: Script)
    ensures
      var flow := Turn(digest, s, profile, force, tree, name, x).1;
      && (flow == Continue <==> Started(tree, x) && (Skips(digest, s, force, name, x) || Succeeds(tree, x)))
      && (flow == Return(130) <==> Started(tree, x) && !Skips(digest, s, force, name, x) && Cut(tree, x, true, false))
      && (flow == Abort <==>
          !Started(tree, x) || (!Skips(digest, s, force, name, x) && Cut(tree, x, false, true)))
      && (flow.Return? && flow.code != 130 ==> 1 <= flow.code <= 125)
      && (Started(tree, x) && !Skips(digest, s, force, name, x) && Fails(tree, x) ==> flow == Return(x.exit.value))
  {}

  /** Only the group's own record and passes may differ. */
  predicate TouchesOnly(s: State, t: State, name: string) {
    && t == s.(groups := t.groups, passes := t.passes)
    && t.groups - {name} == s.groups - {name} && t.passes - {name} == s.passes - {name}
  }

  lemma {:induction false} RecordedTouches(digest: string -> string, s: State, name: string, inputs: string, e: Ending)
    ensures TouchesOnly(s, Recorded(digest, s, name, inputs, e), name)
  {}

  lemma {:induction false} TouchesTwice(s: State, t: State, u: State, name: string)
    requires TouchesOnly(s, t, name) && TouchesOnly(t, u, name)
    ensures TouchesOnly(s, u, name)
  {}

  lemma {:induction false} AttemptTouches(digest: string -> string, s: State, tree: string, name: string,
          current: string, x: Script)
    ensures var written := Attempt(digest, s, tree, name, current, x).0;
            written != [] && TouchesOnly(s, written[|written| - 1], name)
  {
    var running := SetRecord(s, name, Record(Running, current));
    assert TouchesOnly(s, running, name);
    match Prepared(tree, current, x.prepare)
    case Err(e) =>
      RecordedTouches(digest, running, name, current, e);
      TouchesTwice(s, running, Recorded(digest, running, name, current, e), name);
    case Ok(inputs) =>
      var ready, e := SetRecord(running, name, Record(Running, inputs)), Executed(tree, current, inputs, x);
      assert TouchesOnly(running, ready, name);
      RecordedTouches(digest, ready, name, inputs, e);
      TouchesTwice(s, running, ready, name);
      TouchesTwice(s, ready, Recorded(digest, ready, name, inputs, e), name);
  }

  /** A turn puts the cursor on its group, forgets the profile's completed round
      and leaves the other groups as they were. */
  lemma {:induction false} TurnTouchesOnly(digest: string -> string, s: State, profile: string, force: bool,
          tree: string, name: string,
          x: Script)
    ensures
      var written := Turn(digest, s, profile, force, tree, name, x).0;
      written != [] &&
      TouchesOnly(s.(cursor := Some(name), cursors := s.cursors[profile := name], rounds := s.rounds - {profile}),
                  written[|written| - 1], name)
  {
    if Started(tree, x) { AttemptTouches(digest, PointAt(s, profile, name), tree, name, x.inputs.value, x); }
  }

  /** What an attempt records, in a state `t` behind it. */
  predicate AttemptRecorded(digest: string -> string, s: State, tree: string, name: string, x: Script, t: State,
          flow: Flow, known: set<Success>)
    requires x.inputs.Got?
  {
    && name in t.groups
    && (Succeeds(tree, x) ==>
          var pass := Record(Passed, InForce(x));
          t.groups[name] == pass && known == {Success(name, InForce(x), InForce(x))} && name in t.passes &&
          t.passes[name] == (if name in s.passes then s.passes[name] else map[])[digest(InForce(x)) := pass])
    && (!Succeeds(tree, x) && flow != Abort ==>
          t.passes == s.passes && t.groups[name].status == (if flow == Return(130) then Stopped else Failed))
  }

  /** How the pieces of an attempt end. */
  lemma {:induction false} EndsAs(tree: string, x: Script)
    requires x.inputs.Got?
    ensures
      var p := Prepared(tree, x.inputs.value, x.prepare);
      && (Succeeds(tree, x) ==> p.Ok?)
      && (p.Err? ==> p.error.died || p.error.interrupted || p.error.result != 0)
      && (p.Ok? ==>
          && (x.prepare.Some? ==> x.prepare.value.inputs.Got?) && p.value == InForce(x)
          && var e := Executed(tree, x.inputs.value, p.value, x);
             && (Succeeds(tree, x) <==> !e.died && !e.interrupted && e.result == 0)
             && (Succeeds(tree, x) ==> e.inputs == InForce(x)))
  {}

  lemma {:induction false} RecordedAs(digest: string -> string, s: State, name: string, inputs: string, e: Ending)
    ensures
      var t := Recorded(digest, s, name, inputs, e);
      && name in t.groups
      && (if !e.interrupted && e.result == 0 then
            t.groups[name] == Record(Passed, e.inputs) && name in t.passes &&
            t.passes[name] == (if name in s.passes then s.passes[name] else map[])[digest(e.inputs) := t.groups[name]]
          else t.passes == s.passes && t.groups[name].status == (if e.interrupted then Stopped else Failed))
      && (FlowOf(e) == Return(130) <==> !e.died && e.interrupted) && (FlowOf(e) == Abort <==> e.died)
  {}

  lemma {:induction false} AttemptRecords(digest: string -> string, s: State, tree: string, name: string, x: Script)
    requires x.inputs.Got?
    ensures
      var (written, flow, known) := Attempt(digest, s, tree, name, x.inputs.value, x);
      written != [] && AttemptRecorded(digest, s, tree, name, x, written[|written| - 1], flow, known)
  {
    var running := SetRecord(s, name, Record(Running, x.inputs.value));
    EndsAs(tree, x);
    match Prepared(tree, x.inputs.value, x.prepare)
    case Err(e) => RecordedAs(digest, running, name, x.inputs.value, e);
    case Ok(inputs) =>
      RecordedAs(digest, SetRecord(running, name, Record(Running, inputs)), name, inputs,
          Executed(tree, x.inputs.value, inputs, x));
  }

  /** A group that had passed before is recorded with that pass, and one that
      succeeds with a pass for the inputs in force; one cut off by a signal is
      recorded as interrupted and one that fails as failed, without a pass. */
  lemma {:induction false} TurnRecords(digest: string -> string, s: State, profile: string, force: bool, tree: string,
          name: string,
          x: Script)
    requires Started(tree, x)
    ensures
      var (written, flow, known) := Turn(digest, s, profile, force, tree, name, x);
      && written != []
      && var t := written[|written| - 1];
         && (Skips(digest, s, force, name, x) ==>
             name in t.groups && t.groups[name] == Record(Passed, x.inputs.value) && t.passes == s.passes &&
                 known == {})
         && (!Skips(digest, s, force, name, x) ==> AttemptRecorded(digest, s, tree, name, x, t, flow, known))
  {
    AttemptRecords(digest, PointAt(s, profile, name), tree, name, x);
  }

  /** What a turn writes on its way: first the cursor, then, for an attempt, that
      the group is running. */
  lemma {:induction false} TurnWrites(digest: string -> string, s: State, profile: string, force: bool, tree: string,
          name: string,
          x: Script)
    requires Started(tree, x) && !Skips(digest, s, force, name, x)
    ensures
      var written := Turn(digest, s, profile, force, tree, name, x).0;
      && |written| == (if x.prepare.Some? && x.prepare.value.exit == Got(0) && x.prepare.value.tree == Got(tree) &&
                          x.prepare.value.inputs.Got? then 4 else 3)
      && written[0] == s.(cursors := s.cursors[profile := name], cursor := Some(name), rounds := s.rounds - {profile})
      && written[1] == written[0].(groups := s.groups[name := Record(Running, x.inputs.value)])
      && (|written| == 4 ==> written[2] == written[0].(groups := s.groups[name := Record(Running, InForce(x))]))
  {
    var r := SetRecord(PointAt(s, profile, name), name, Record(Running, x.inputs.value));
    if x.prepare.Some? && x.prepare.value.inputs.Got? {
      var q := x.prepare.value.inputs.value;
      assert s.groups[name := Record(Running, x.inputs.value)][name := Record(Running, q)] ==
             s.groups[name := Record(Running, q)];
    }
  }

  // --------------------------------------------------------- the closing check

  /** The group's record holds a pass for the inputs read at the end. */
  predicate Confirmed(s: State, name: string, expected: Got<string>) {
    expected.Got? && name in s.groups && s.groups[name] == Record(Passed, expected.value)
  }

  lemma {:induction false} FirstOpenExactly(s: State, selected: seq<string>, expected: seq<Got<string>>)
    requires |expected| == |selected|
    ensures var i := FirstOpen(s, selected, expected);
            && i <= |selected| && (forall k | 0 <= k < i :: Confirmed(s, selected[k], expected[k]))
            && (i < |selected| ==> !Confirmed(s, selected[i], expected[i]))
  {
    if selected != [] { FirstOpenExactly(s, selected[1..], expected[1..]); }
  }

  lemma {:induction false} KeysExactly(digest: string -> string, selected: seq<string>, expected: seq<Got<string>>)
    requires |expected| == |selected| && forall i | 0 <= i < |expected| :: expected[i].Got?
    requires forall i, j | 0 <= i < j < |selected| :: selected[i] != selected[j]
    ensures var keys := KeysOf(digest, selected, expected);
            && (forall n :: n in keys <==> n in selected)
            && forall i | 0 <= i < |selected| :: keys[selected[i]] == digest(expected[i].value)
  {
    if selected != [] {
      var k := |selected| - 1;
      KeysExactly(digest, selected[..k], expected[..k]);
      assert selected == selected[..k] + [selected[k]];
    }
  }

  /** The closing check completes the round exactly when every selected group's
      record holds a pass for the inputs read now and the source is unchanged; it
      then records the round with the digests of these inputs, and the next one
      starts at the first group. It ends with 1 exactly at a first group whose
      record does not hold, which the cursor then names. */
  lemma {:induction false} CompletesExactly(digest: string -> string, s: State, profile: string, tree: string,
          selected: seq<string>,
          expected: seq<Got<string>>, treeEnd: Got<string>)
    requires |expected| == |selected| && selected != []
    requires forall i, j | 0 <= i < j < |selected| :: selected[i] != selected[j]
    ensures
      var (written, flow) := Complete(digest, s, profile, tree, selected, expected, treeEnd);
      && (flow == Return(0) <==>
          (forall i | 0 <= i < |selected| :: Confirmed(s, selected[i], expected[i])) && treeEnd == Got(tree))
      && (flow == Return(0) ==>
          && |written| == 1 && written[0].groups == s.groups && written[0].passes == s.passes
          && profile in written[0].rounds && written[0].rounds[profile].tree == tree
          && (forall n :: n in written[0].rounds[profile].inputs <==> n in selected)
          && (forall i | 0 <= i < |selected| ::
                written[0].rounds[profile].inputs[selected[i]] == digest(expected[i].value))
          && written[0].cursors == s.cursors[profile := selected[0]]
          && (written[0].cursor.Some? <==> s.cursor.Some? && s.cursor.value !in selected))
      && (flow == Return(1) <==>
          exists i :: 0 <= i < |selected| && OpenAt(s, selected, expected, i) && expected[i].Got?)
      && (flow == Return(1) ==>
          && |written| == 1 && written[0].cursor.Some?
          && (exists i :: 0 <= i < |selected| && OpenAt(s, selected, expected, i) &&
                          selected[i] == written[0].cursor.value)
          && written[0] == s.(cursors := s.cursors[profile := written[0].cursor.value], cursor := written[0].cursor))
      && (flow != Return(0) && flow != Return(1) ==> flow == Abort && written == [])
  {
    FirstOpenExactly(s, selected, expected);
    var i := FirstOpen(s, selected, expected);
    if i < |selected| {
      assert OpenAt(s, selected, expected, i);
    } else if treeEnd == Got(tree) {
      KeysExactly(digest, selected, expected);
    }
  }

  /** The first group whose record does not hold. */
  predicate OpenAt(s: State, selected: seq<string>, expected: seq<Got<string>>, i: nat)
    requires |expected| == |selected|
  {
    && i < |selected| && !Confirmed(s, selected[i], expected[i])
    && forall k | 0 <= k < i :: Confirmed(s, selected[k], expected[k])
  }

  // ----------------------------------------------------------- a round as a whole

  /** A round starts where the last one stopped, if that group is selected and
      the run is not forced: at the cursor, or without one where the profile
      stands, or else at the first group. */
  lemma {:induction false} StartsExactly(s: State, profile: string, force: bool, selected: seq<string>, at: string)
    requires selected != []
    ensures
      var left := if s.cursor.Some? && s.cursor.value != "" then s.cursor
                  else if profile in s.cursors then Some(s.cursors[profile]) else None;
      StartAt(s, profile, force, selected) ==
        if !force && left.Some? && left.value in selected then left.value else selected[0]
  {}

  /** The group meets an unchanged source and the inputs `inputs` throughout, and
      its preparation and command succeed. */
  predicate Undisturbed(tree: string, x: Script, inputs: string) {
    && x.tree == Got(tree) && x.inputs == Got(inputs) && x.exit == Got(0) && x.treeAfter == Got(tree)
    && x.after == Got(inputs)
    && (x.prepare.Some? ==> x.prepare.value == Preparation(Got(0), Got(tree), Got(inputs)))
  }

  lemma {:induction false} UndisturbedPasses(digest: string -> string, s: State, profile: string, force: bool,
          tree: string, name: string,
          x: Script, inputs: string)
    requires Undisturbed(tree, x, inputs)
    ensures
      var r := Turn(digest, s, profile, force, tree, name, x);
      && r.1 == Continue && HoldsPass(Last(s, r.0), name, inputs)
      && forall n, i | n != name && HoldsPass(s, n, i) :: HoldsPass(Last(s, r.0), n, i)
  {
    var r := Turn(digest, s, profile, force, tree, name, x);
    TurnEndsExactly(digest, s, profile, force, tree, name, x);
    TurnTouchesOnly(digest, s, profile, force, tree, name, x);
    TurnRecords(digest, s, profile, force, tree, name, x);
    var t := Last(s, r.0);
    forall n, i | n != name && HoldsPass(s, n, i) ensures HoldsPass(t, n, i) {
      assert n in s.groups - {name} && n in t.groups - {name};
      assert (s.groups - {name})[n] == (t.groups - {name})[n];
    }
  }

  lemma {:induction false} UndisturbedTurns(digest: string -> string, s: State, profile: string, force: bool,
          tree: string, names: seq<string>, xs: seq<Script>, inputs: string -> string, done: set<string>)
    requires |xs| == |names| && forall i | 0 <= i < |xs| :: Undisturbed(tree, xs[i], inputs(names[i]))
    requires forall n | n in done :: HoldsPass(s, n, inputs(n))
    ensures
      var r := Turns(digest, s, profile, force, tree, names, xs);
      && r.1 == Continue
      && forall n | n in done || n in names :: HoldsPass(Last(s, r.0), n, inputs(n))
    decreases names
  {
    if names != [] {
      var r := Turn(digest, s, profile, force, tree, names[0], xs[0]);
      UndisturbedPasses(digest, s, profile, force, tree, names[0], xs[0], inputs(names[0]));
      var t := Last(s, r.0);
      forall n | n in done + {names[0]} ensures HoldsPass(t, n, inputs(n)) {}
      UndisturbedTurns(digest, t, profile, force, tree, names[1..], xs[1..], inputs, done + {names[0]});
      LastJoined(s, r.0, Turns(digest, t, profile, force, tree, names[1..], xs[1..]).0);
    }
  }

  /** A round can start: group ids are distinct, the groups wanted are some of
      them and at least one, and the source can be read. */
  predicate Proper(p: Plan) {
    && (forall i, j :: 0 <= i < j < |p.groups| ==> p.groups[i] != p.groups[j])
    && |p.wanted| > 0 && p.wanted <= (set n | n in p.groups) && p.tree.Got?
  }

  lemma {:induction false} ProperIsSane(p: Plan)
    ensures Proper(p) <==> Sane(p)
    ensures Proper(p) ==> Selected(p.groups, p.wanted) != []
  {
    SelectionIsExact(p.groups, p.wanted);
    if p.wanted != {} {
      var n :| n in p.wanted;
      assert n in p.groups ==> n in Selected(p.groups, p.wanted);
      assert |p.wanted| == |p.wanted - {n}| + 1;
    }
  }

  /** Otherwise it ends without a result, and writes and runs nothing. */
  lemma {:induction false} ImproperIsRefused(digest: string -> string, s: State, p: Plan)
    requires |p.scripts| == |Selected(p.groups, p.wanted)| == |p.expected| && !Proper(p)
    ensures Run(digest, s, p) == ([], Abort, {})
  {
    ProperIsSane(p);
  }

  /** From a state where the round begins, in any order of the groups. */
  lemma {:induction false} UndisturbedRunFrom(digest: string -> string, s: State, p: Plan, selected: seq<string>,
          ordered: seq<string>, inputs: string -> string)
    requires |p.scripts| == |ordered| && |selected| == |p.expected| && selected != [] && p.tree.Got?
    requires p.treeEnd == p.tree && forall i, j | 0 <= i < j < |selected| :: selected[i] != selected[j]
    requires forall n | n in selected :: n in ordered
    requires forall i | 0 <= i < |ordered| :: Undisturbed(p.tree.value, p.scripts[i], inputs(ordered[i]))
    requires forall i | 0 <= i < |selected| :: p.expected[i] == Got(inputs(selected[i]))
    ensures RunFrom(digest, s, p, selected, ordered).1 == Return(0)
  {
    UndisturbedTurns(digest, s, p.profile, p.force, p.tree.value, ordered, p.scripts, inputs, {});
    var last := Last(s, Turns(digest, s, p.profile, p.force, p.tree.value, ordered, p.scripts).0);
    forall i | 0 <= i < |selected| ensures Confirmed(last, selected[i], p.expected[i]) {
      assert selected[i] in ordered;
    }
    CompletesExactly(digest, last, p.profile, p.tree.value, selected, p.expected, p.treeEnd);
  }

  /** A round completes: over an unchanged source, with inputs that stay the same
      for each group and commands that succeed, `run` returns 0 from any state. */
  lemma {:induction false} UndisturbedCompletes(digest: string -> string, s: State, p: Plan, inputs: string -> string)
    requires Proper(p) && p.treeEnd == p.tree
    requires |p.scripts| == |Selected(p.groups, p.wanted)| == |p.expected| > 0
    requires
      var selected := Selected(p.groups, p.wanted);
      var ordered := Rotated(selected, StartAt(s, p.profile, p.force, selected));
      && |ordered| == |p.scripts|
      && (forall i | 0 <= i < |ordered| :: Undisturbed(p.tree.value, p.scripts[i], inputs(ordered[i])))
      && (forall i | 0 <= i < |selected| :: p.expected[i] == Got(inputs(selected[i])))
    ensures Run(digest, s, p).1 == Return(0)
  {
    var selected := Selected(p.groups, p.wanted);
    var ordered := Rotated(selected, StartAt(s, p.profile, p.force, selected));
    ProperIsSane(p);
    SelectionIsExact(p.groups, p.wanted);
    forall n | n in selected ensures n in ordered {
      RotationCoversSelection(s, p, n);
      assert n in multiset(ordered);
    }
    UndisturbedRunFrom(digest, Last(s, Cleared(s, p)), p, selected, ordered, inputs);
  }
}
