/**
 * Tool declarations in the transcript: replay (getCurrentTools), difference (getToolStateChanges)
 * and declareToolChanges, which makes the replay equal to the executable tool set.
 */
module ToolChanges {
  import opened Wrappers
  import opened AgentMessages

  // ----- A JavaScript Map from names to tools, as a list in insertion order -----

  ghost predicate UniqueNames(ts: seq<Tool>) {
    forall i, j :: 0 <= i < j < |ts| ==> ts[i].name != ts[j].name
  }

  predicate HasName(ts: seq<Tool>, n: string) {
    exists i :: 0 <= i < |ts| && ts[i].name == n
  }

  /** map.delete(n) */
  function Delete(ts: seq<Tool>, n: string): seq<Tool> {
    if ts == [] then []
    else if ts[|ts|-1].name == n then Delete(ts[..|ts|-1], n)
    else Delete(ts[..|ts|-1], n) + [ts[|ts|-1]]
  }

  /** map.set(t.name, t): an existing key keeps its place. */
  function Set(ts: seq<Tool>, t: Tool): seq<Tool> {
    if ts == [] then [t]
    else if ts[|ts|-1].name == t.name then ts[..|ts|-1] + [t]
    else if HasName(ts[..|ts|-1], t.name) then Set(ts[..|ts|-1], t) + [ts[|ts|-1]]
    else ts + [t]
  }

  /** The last tool of that name: what new Map(list).get(n) finds. */
  function Find(ts: seq<Tool>, n: string): Option<Tool> {
    if ts == [] then None
    else if ts[|ts|-1].name == n then Some(ts[|ts|-1])
    else Find(ts[..|ts|-1], n)
  }

  lemma {:induction false} FindHasName(ts: seq<Tool>, n: string)
    ensures Find(ts, n).Some? <==> HasName(ts, n)
    ensures Find(ts, n).Some? ==> Find(ts, n).value in ts && Find(ts, n).value.name == n
  {
    if ts != [] {
      FindHasName(ts[..|ts|-1], n);
      if HasName(ts, n) && ts[|ts|-1].name != n {
        var i :| 0 <= i < |ts| && ts[i].name == n;
        assert ts[..|ts|-1][i] == ts[i];
      }
    }
  }

  lemma {:induction false} DeleteFinds(ts: seq<Tool>, d: string, n: string)
    ensures Find(Delete(ts, d), n) == if n == d then None else Find(ts, n)
  {
    if ts != [] {
      DeleteFinds(ts[..|ts|-1], d, n);
    }
  }

  lemma {:induction false} SetFinds(ts: seq<Tool>, t: Tool, n: string)
    ensures Find(Set(ts, t), n) == if n == t.name then Some(t) else Find(ts, n)
  {
    if ts != [] && ts[|ts|-1].name != t.name && HasName(ts[..|ts|-1], t.name) {
      SetFinds(ts[..|ts|-1], t, n);
    }
  }

  lemma {:induction false} DeleteNames(ts: seq<Tool>, d: string)
    requires UniqueNames(ts)
    ensures UniqueNames(Delete(ts, d))
    ensures forall t <- Delete(ts, d) :: t in ts && t.name != d
  {
    if ts != [] {
      DeleteNames(ts[..|ts|-1], d);
      var r := Delete(ts[..|ts|-1], d);
      forall i | 0 <= i < |r| ensures r[i].name != ts[|ts|-1].name {
        assert r[i] in r;
      }
    }
  }

  lemma {:induction false} SetNames(ts: seq<Tool>, t: Tool)
    requires UniqueNames(ts)
    ensures UniqueNames(Set(ts, t))
    ensures forall u <- Set(ts, t) :: u == t || u in ts
  {
    if ts != [] {
      var init, last := ts[..|ts|-1], ts[|ts|-1];
      if last.name != t.name && HasName(init, t.name) {
        SetNames(init, t);
        var r := Set(init, t);
        forall i | 0 <= i < |r| ensures r[i].name != last.name {
          assert r[i] in r;
        }
      }
    }
  }

  // ----- The list as a map in insertion order -----

  /** t stands at i and no later entry has its name. */
  ghost predicate LastOfName(ts: seq<Tool>, i: nat, t: Tool) {
    i < |ts| && ts[i] == t && forall j :: i < j < |ts| ==> ts[j].name != t.name
  }

  /** Find is the last entry of a name. */
  lemma {:induction false} FindIsLast(ts: seq<Tool>, t: Tool)
    ensures Find(ts, t.name) == Some(t) <==> exists i: nat :: LastOfName(ts, i, t)
  {
    if ts != [] {
      var init, last := ts[..|ts|-1], ts[|ts|-1];
      FindIsLast(init, t);
      if last.name == t.name {
        assert last == t ==> LastOfName(ts, |init|, t);
        forall i: nat | LastOfName(ts, i, t) ensures i == |init| {
        }
      } else {
        forall i: nat ensures LastOfName(ts, i, t) <==> LastOfName(init, i, t) {
        }
      }
    }
  }

  /** Setting a tool overwrites the entry of its name where it stands, or else appends. */
  lemma {:induction false} SetInPlace(ts: seq<Tool>, t: Tool)
    requires UniqueNames(ts)
    ensures !HasName(ts, t.name) ==> Set(ts, t) == ts + [t]
    ensures HasName(ts, t.name) ==> |Set(ts, t)| == |ts|
    ensures HasName(ts, t.name) ==> forall i :: 0 <= i < |ts| ==>
      Set(ts, t)[i] == if ts[i].name == t.name then t else ts[i]
  {
    if ts != [] {
      SetInPlace(ts[..|ts|-1], t);
    }
  }

  /** Deleting a name closes the gap its entry leaves. */
  lemma {:induction false} DeleteInPlace(ts: seq<Tool>, n: string)
    requires UniqueNames(ts)
    ensures !HasName(ts, n) ==> Delete(ts, n) == ts
    ensures forall i :: 0 <= i < |ts| && ts[i].name == n ==> Delete(ts, n) == ts[..i] + ts[i+1..]
  {
    if ts != [] {
      var init := ts[..|ts|-1];
      DeleteInPlace(init, n);
      forall i | 0 <= i < |ts| && ts[i].name == n ensures Delete(ts, n) == ts[..i] + ts[i+1..] {
        if i < |init| {
          assert init[i].name == n && init[..i] + init[i+1..] + [ts[|ts|-1]] == ts[..i] + ts[i+1..];
        } else {
          assert !HasName(init, n);
        }
      }
    }
  }

  // ----- Replay -----

  function DeleteAll(ts: seq<Tool>, names: seq<string>): seq<Tool> {
    if names == [] then ts else Delete(DeleteAll(ts, names[..|names|-1]), names[|names|-1])
  }

  function SetAll(ts: seq<Tool>, added: seq<Tool>): seq<Tool> {
    if added == [] then ts else Set(SetAll(ts, added[..|added|-1]), added[|added|-1])
  }

  function ReplayOne(ts: seq<Tool>, m: Message): seq<Tool> {
    if m.System? then SetAll(DeleteAll(ts, m.toolsRemoved), m.toolsAdded) else ts
  }

  /** getCurrentTools: apply every system message's removals, then additions, in order. */
  function CurrentTools(ms: seq<Message>): seq<Tool> {
    if ms == [] then [] else ReplayOne(CurrentTools(ms[..|ms|-1]), ms[|ms|-1])
  }

  lemma {:induction false} DeleteAllFinds(ts: seq<Tool>, names: seq<string>, n: string)
    ensures Find(DeleteAll(ts, names), n) == if n in names then None else Find(ts, n)
  {
    if names != [] {
      DeleteAllFinds(ts, names[..|names|-1], n);
      DeleteFinds(DeleteAll(ts, names[..|names|-1]), names[|names|-1], n);
      assert names == names[..|names|-1] + [names[|names|-1]];
    }
  }

  lemma {:induction false} SetAllFinds(ts: seq<Tool>, added: seq<Tool>, n: string)
    ensures Find(SetAll(ts, added), n) == if Find(added, n).Some? then Find(added, n) else Find(ts, n)
  {
    if added != [] {
      SetAllFinds(ts, added[..|added|-1], n);
      SetFinds(SetAll(ts, added[..|added|-1]), added[|added|-1], n);
    }
  }

  lemma {:induction false} DeleteAllNames(ts: seq<Tool>, names: seq<string>)
    requires UniqueNames(ts)
    ensures UniqueNames(DeleteAll(ts, names))
  {
    if names != [] {
      DeleteAllNames(ts, names[..|names|-1]);
      DeleteNames(DeleteAll(ts, names[..|names|-1]), names[|names|-1]);
    }
  }

  lemma {:induction false} SetAllNames(ts: seq<Tool>, added: seq<Tool>)
    requires UniqueNames(ts)
    ensures UniqueNames(SetAll(ts, added))
  {
    if added != [] {
      SetAllNames(ts, added[..|added|-1]);
      SetNames(SetAll(ts, added[..|added|-1]), added[|added|-1]);
    }
  }

  /** Replay never lists a name twice. */
  lemma {:induction false} CurrentToolsUnique(ms: seq<Message>)
    ensures UniqueNames(CurrentTools(ms))
  {
    if ms != [] {
      var ts, m := CurrentTools(ms[..|ms|-1]), ms[|ms|-1];
      CurrentToolsUnique(ms[..|ms|-1]);
      if m.System? {
        DeleteAllNames(ts, m.toolsRemoved);
        SetAllNames(DeleteAll(ts, m.toolsRemoved), m.toolsAdded);
      }
    }
  }

  lemma {:induction false} ReplayOrdinary(ms: seq<Message>, tail: seq<Message>)
    requires forall i :: 0 <= i < |tail| ==> !tail[i].System?
    ensures CurrentTools(ms + tail) == CurrentTools(ms)
  {
    if tail == [] {
      assert ms + tail == ms;
    } else {
      ReplayOrdinary(ms, tail[..|tail|-1]);
      assert (ms + tail)[..|ms + tail|-1] == ms + tail[..|tail|-1];
    }
  }

  // ----- The difference of two tool states -----

  datatype Changes = Changes(added: seq<Tool>, removed: seq<string>)

  const NO_CHANGES := Changes([], [])

  /** The tools of current that previous does not hold in the same form. */
  function AddedTools(previous: seq<Tool>, current: seq<Tool>): seq<Tool> {
    if current == [] then []
    else
      var init, t := current[..|current|-1], current[|current|-1];
      if Find(previous, t.name) == Some(t) then AddedTools(previous, init) else AddedTools(previous, init) + [t]
  }

  function RemovedNames(previous: seq<Tool>, current: seq<Tool>): seq<string> {
    if previous == [] then []
    else
      var init, t := previous[..|previous|-1], previous[|previous|-1];
      if Find(current, t.name) == Some(t) then RemovedNames(init, current) else RemovedNames(init, current) + [t.name]
  }

  /** The tools of previous that current still holds in the same form. */
  function KeptTools(previous: seq<Tool>, current: seq<Tool>): seq<Tool> {
    if previous == [] then []
    else
      var init, t := previous[..|previous|-1], previous[|previous|-1];
      if Find(current, t.name) == Some(t) then KeptTools(init, current) + [t] else KeptTools(init, current)
  }

  /** getToolStateChanges */
  function Difference(previous: seq<Tool>, current: seq<Tool>): Changes {
    Changes(AddedTools(previous, current), RemovedNames(previous, current))
  }

  function Apply(ts: seq<Tool>, c: Changes): seq<Tool> {
    SetAll(DeleteAll(ts, c.removed), c.added)
  }

  /**
   * Duplicates that the difference cannot express: some name whose last entry is the one already
   * declared, although an earlier entry of that name differs.
   */
  ghost predicate Shadowed(previous: seq<Tool>, current: seq<Tool>) {
    exists i :: 0 <= i < |current|
             && Find(previous, current[i].name) == Find(current, current[i].name) != Some(current[i])
  }

  lemma {:induction false} AddedFinds(previous: seq<Tool>, current: seq<Tool>, n: string)
    ensures Find(AddedTools(previous, current), n) == None ==>
              forall i :: 0 <= i < |current| && current[i].name == n ==> Find(previous, n) == Some(current[i])
    ensures Find(AddedTools(previous, current), n) != None ==>
              && Find(AddedTools(previous, current), n) != Find(previous, n)
              && HasName(current, n)
    ensures Find(previous, n) != Find(current, n) && Find(current, n).Some? ==>
              Find(AddedTools(previous, current), n) == Find(current, n)
  {
    if current != [] {
      var init, t := current[..|current|-1], current[|current|-1];
      hide HasName;
      AddedFinds(previous, init, n);
      assert forall i :: 0 <= i < |init| ==> init[i] == current[i];
      FindHasName(init, n);
      FindHasName(current, n);
    }
  }

  lemma {:induction false} RemovedContains(previous: seq<Tool>, current: seq<Tool>, n: string)
    requires UniqueNames(previous)
    ensures n in RemovedNames(previous, current) <==> Find(previous, n).Some? && Find(previous, n) != Find(current, n)
  {
    if previous != [] {
      var init, t := previous[..|previous|-1], previous[|previous|-1];
      RemovedContains(init, current, n);
      if n == t.name {
        FindHasName(init, n);
        assert !HasName(init, n);
      }
    }
  }

  /** What the difference does to one name. */
  lemma ApplyFinds(previous: seq<Tool>, c: Changes, n: string)
    requires UniqueNames(previous)
    ensures (Find(Apply(previous, c), n)
      == if Find(c.added, n).Some? then Find(c.added, n) else if n in c.removed then None else Find(previous, n))
  {
    DeleteAllFinds(previous, c.removed, n);
    SetAllFinds(DeleteAll(previous, c.removed), c.added, n);
  }

  lemma UnshadowedIsKept(previous: seq<Tool>, current: seq<Tool>, n: string)
    requires UniqueNames(previous) && !Shadowed(previous, current)
    ensures Find(Apply(previous, Difference(previous, current)), n) == Find(current, n)
  {
    ApplyFinds(previous, Difference(previous, current), n);
    hide Apply, Shadowed;
    AddedFinds(previous, current, n);
    RemovedContains(previous, current, n);
    FindHasName(current, n);
    if Find(previous, n) == Find(current, n) {
      NotShadowedAdds(previous, current, n);
    }
  }

  lemma ShadowedIsLost(previous: seq<Tool>, current: seq<Tool>) returns (n: string)
    requires UniqueNames(previous) && Shadowed(previous, current)
    ensures Find(Apply(previous, Difference(previous, current)), n) != Find(current, n)
  {
    var i :| 0 <= i < |current|
          && Find(previous, current[i].name) == Find(current, current[i].name) != Some(current[i]);
    n := current[i].name;
    ApplyFinds(previous, Difference(previous, current), n);
    hide Apply;
    AddedFinds(previous, current, n);
  }

  /** Applying the difference gives the current state, name by name, exactly when nothing is shadowed. */
  lemma DifferenceIsExact(previous: seq<Tool>, current: seq<Tool>)
    requires UniqueNames(previous)
    ensures (forall n :: Find(Apply(previous, Difference(previous, current)), n) == Find(current, n))
       <==> !Shadowed(previous, current)
  {
    hide Apply, Difference, Find, Shadowed;
    if Shadowed(previous, current) {
      var n := ShadowedIsLost(previous, current);
    } else {
      forall n ensures Find(Apply(previous, Difference(previous, current)), n) == Find(current, n) {
        UnshadowedIsKept(previous, current, n);
      }
    }
  }

  lemma NotShadowedAdds(previous: seq<Tool>, current: seq<Tool>, n: string)
    requires !Shadowed(previous, current) && Find(previous, n) == Find(current, n)
    ensures Find(AddedTools(previous, current), n) == None
  {
    if Find(AddedTools(previous, current), n) != None {
      AddedFinds(previous, current, n);
      AddedIsCurrent(previous, current, n);
    }
  }

  lemma {:induction false} AddedIsCurrent(previous: seq<Tool>, current: seq<Tool>, n: string)
    requires Find(AddedTools(previous, current), n) != None
    ensures exists i ::
      0 <= i < |current| && current[i].name == n && Some(current[i]) == Find(AddedTools(previous, current), n)
  {
    var init, t := current[..|current|-1], current[|current|-1];
    if t.name == n && Find(previous, n) != Some(t) {
    } else {
      AddedIsCurrent(previous, init, n);
      var i :| 0 <= i < |init| && init[i].name == n && Some(init[i]) == Find(AddedTools(previous, init), n);
      assert current[i] == init[i];
    }
  }

  lemma UniqueIsNotShadowed(previous: seq<Tool>, current: seq<Tool>)
    requires UniqueNames(current)
    ensures !Shadowed(previous, current)
  {
    forall i | 0 <= i < |current| ensures Find(current, current[i].name) == Some(current[i]) {
      UniqueFinds(current, i);
    }
  }

  lemma {:induction false} UniqueFinds(ts: seq<Tool>, i: nat)
    requires UniqueNames(ts) && i < |ts|
    ensures Find(ts, ts[i].name) == Some(ts[i])
  {
    if i < |ts| - 1 {
      UniqueFinds(ts[..|ts|-1], i);
    }
  }

  // ----- declareToolChanges -----

  function LastSystem(pending: seq<Message>): (i: int)
    ensures -1 <= i < |pending|
    ensures i >= 0 ==> pending[i].System?
    ensures forall j :: i < j < |pending| ==> !pending[j].System?
  {
    if pending == [] then -1
    else if pending[|pending|-1].System? then |pending| - 1
    else LastSystem(pending[..|pending|-1])
  }

  function WithToolChanges(m: Message, c: Changes): Message
    requires m.System?
  {
    System(m.text, c.added, c.removed)
  }

  function FirstNonSystem(ms: seq<Message>): (i: nat)
    ensures i <= |ms|
    ensures forall j :: 0 <= j < i ==> ms[j].System?
    ensures i < |ms| ==> !ms[i].System?
  {
    if ms == [] || !ms[0].System? then 0 else 1 + FirstNonSystem(ms[1..])
  }

  function Baseline(pending: seq<Message>): seq<Message> {
    var i := LastSystem(pending);
    if i >= 0 then pending[i := WithToolChanges(pending[i], NO_CHANGES)] else pending
  }

  /** What the transcript declares before the pending message's own tool fields are rewritten. */
  function Declared(transcript: seq<Message>, pending: seq<Message>): seq<Tool> {
    CurrentTools(transcript + Baseline(pending))
  }

  function DeclareToolChanges(transcript: seq<Message>, tools: seq<Tool>, pending: seq<Message>): seq<Message> {
    var i := LastSystem(pending);
    var changes := Difference(Declared(transcript, pending), tools);
    var settled := changes == NO_CHANGES;
    if i >= 0 then
      if settled && pending[i].toolsAdded == [] && pending[i].toolsRemoved == [] then pending
      else Baseline(pending)[i := WithToolChanges(pending[i], changes)]
    else if settled then pending
    else
      var at := FirstNonSystem(pending);
      pending[..at] + [System("", changes.added, changes.removed)] + pending[at..]
  }

  /** Only the system message at i counts in a list whose later messages are ordinary. */
  lemma ReplayAround(transcript: seq<Message>, head: seq<Message>, m: Message, tail: seq<Message>)
    requires forall i :: 0 <= i < |tail| ==> !tail[i].System?
    ensures CurrentTools(transcript + (head + [m] + tail)) == ReplayOne(CurrentTools(transcript + head), m)
  {
    assert transcript + (head + [m] + tail) == (transcript + head + [m]) + tail;
    ReplayOrdinary(transcript + head + [m], tail);
    assert (transcript + head + [m])[..|transcript + head|] == transcript + head;
  }

  /** Replaying the result applies exactly the difference, in every branch. */
  lemma DeclaredReplay(transcript: seq<Message>, tools: seq<Tool>, pending: seq<Message>)
    ensures CurrentTools(transcript + DeclareToolChanges(transcript, tools, pending))
         == Apply(Declared(transcript, pending), Difference(Declared(transcript, pending), tools))
  {
    if LastSystem(pending) >= 0 {
      DeclaredReplayRewrite(transcript, tools, pending);
    } else {
      DeclaredReplayInsert(transcript, tools, pending);
    }
  }

  lemma DeclaredReplayRewrite(transcript: seq<Message>, tools: seq<Tool>, pending: seq<Message>)
    requires LastSystem(pending) >= 0
    ensures CurrentTools(transcript + DeclareToolChanges(transcript, tools, pending))
         == Apply(Declared(transcript, pending), Difference(Declared(transcript, pending), tools))
  {
    var i := LastSystem(pending);
    var changes := Difference(Declared(transcript, pending), tools);
    var head, tail := pending[..i], pending[i+1..];
    var quiet, loud := WithToolChanges(pending[i], NO_CHANGES), WithToolChanges(pending[i], changes);
    RewrittenShape(transcript, tools, pending);
    SpliceAt(pending, i, quiet);
    SpliceAt(pending, i, loud);
    ReplayAround(transcript, head, quiet, tail);
    ReplayAround(transcript, head, loud, tail);
  }

  lemma SpliceAt(ms: seq<Message>, i: nat, m: Message)
    requires i < |ms|
    ensures ms[i := m] == ms[..i] + [m] + ms[i+1..]
  {
  }

  lemma RewrittenShape(transcript: seq<Message>, tools: seq<Tool>, pending: seq<Message>)
    requires LastSystem(pending) >= 0
    ensures var i := LastSystem(pending);
            DeclareToolChanges(transcript, tools, pending)
              == pending[i := WithToolChanges(pending[i], Difference(Declared(transcript, pending), tools))]
  {
  }

  lemma DeclaredReplayInsert(transcript: seq<Message>, tools: seq<Tool>, pending: seq<Message>)
    requires LastSystem(pending) < 0
    ensures CurrentTools(transcript + DeclareToolChanges(transcript, tools, pending))
         == Apply(Declared(transcript, pending), Difference(Declared(transcript, pending), tools))
  {
    var changes := Difference(Declared(transcript, pending), tools);
    var r := DeclareToolChanges(transcript, tools, pending);
    if changes != NO_CHANGES {
      ReplayOrdinary(transcript, pending);
      var update := System("", changes.added, changes.removed);
      assert FirstNonSystem(pending) == 0;
      assert r == [] + [update] + pending;
      ReplayAround(transcript, [], update, pending);
      assert transcript + [] == transcript;
    }
  }

  /** Replay of the committed transcript and the result declares exactly the executable tools. */
  lemma ReplayIsExact(transcript: seq<Message>, tools: seq<Tool>, pending: seq<Message>)
    ensures (forall n ::
      Find(CurrentTools(transcript + DeclareToolChanges(transcript, tools, pending)), n) == Find(tools, n))
       <==> !Shadowed(Declared(transcript, pending), tools)
    ensures UniqueNames(tools) ==> !Shadowed(Declared(transcript, pending), tools)
  {
    DeclaredReplay(transcript, tools, pending);
    CurrentToolsUnique(transcript + Baseline(pending));
    DifferenceIsExact(Declared(transcript, pending), tools);
    if UniqueNames(tools) {
      UniqueIsNotShadowed(Declared(transcript, pending), tools);
    }
  }

  /** A transcript that declares just these tools. */
  function Declaring(tools: seq<Tool>): seq<Message> {
    [System("", tools, [])]
  }

  lemma DeclaringDeclares(tools: seq<Tool>)
    ensures Declared(Declaring(tools), []) == SetAll([], tools)
  {
    assert Declaring(tools) + Baseline([]) == Declaring(tools);
    assert CurrentTools(Declaring(tools)[..0]) == [];
  }

  /**
   * A duplicate that fails: a is declared in form 1, the list holds form 2 and then form 1, while replay
   * declares form 2.
   */
  lemma ShadowedDuplicateIsLost()
    ensures var one, two := Tool("a", "1"), Tool("a", "2");
      && Shadowed(Declared(Declaring([one]), []), [two, one])
      && Find(CurrentTools(Declaring([one]) + DeclareToolChanges(Declaring([one]), [two, one], [])), "a") == Some(two)
      && Find([two, one], "a") == Some(one)
  {
    var one, two := Tool("a", "1"), Tool("a", "2");
    DeclaringDeclares([one]);
    assert [one][..0] == [] && [two, one][..1] == [two] && [two][..0] == [];
    assert SetAll([], [one]) == [one];
    DeclaredReplay(Declaring([one]), [two, one], []);
    assert Find([one], "a") == Some(one) && Find([two, one], "a") == Some(one) && Find([two], "a") == Some(two);
    assert AddedTools([one], [two]) == [two];
    assert AddedTools([one], [two, one]) == [two];
    assert RemovedNames([one], [two, one]) == [];
    assert DeleteAll([one], []) == [one];
    assert SetAll([one], [two]) == Set([one], two) == [two];
    assert [two, one][0].name == "a";
  }

  /** An order that fails: a and b are declared, the list holds b and then a, and replay keeps a first. */
  lemma ReorderedToolsStayPut()
    ensures var a, b := Tool("a", ""), Tool("b", "");
      && CurrentTools(Declaring([a, b]) + DeclareToolChanges(Declaring([a, b]), [b, a], [])) == [a, b] != [b, a]
      && !(KeptTools(Declared(Declaring([a, b]), []), [b, a]) <= [b, a])
  {
    var a, b := Tool("a", ""), Tool("b", "");
    DeclaringDeclares([a, b]);
    assert [a, b][..1] == [a] && [a][..0] == [] && [b, a][..1] == [b] && [b][..0] == [];
    assert SetAll([], [a]) == [a];
    assert SetAll([], [a, b]) == [a, b];
    DeclaredReplay(Declaring([a, b]), [b, a], []);
    assert Find([b, a], "a") == Some(a) && Find([b, a], "b") == Some(b);
    assert Find([a, b], "a") == Some(a) && Find([a, b], "b") == Some(b);
    assert KeptTools([a], [b, a]) == [a];
    assert KeptTools([a, b], [b, a]) == [a, b];
    assert AddedTools([a, b], [b]) == [];
    assert AddedTools([a, b], [b, a]) == [];
    assert RemovedNames([a], [b, a]) == [];
    assert RemovedNames([a, b], [b, a]) == [];
    assert [a, b][0] != [b, a][0];
  }

  // ----- Order of the replayed tools -----

  lemma {:induction false} DeleteRemoved(previous: seq<Tool>, current: seq<Tool>, rest: seq<Tool>)
    requires UniqueNames(previous + rest)
    ensures DeleteAll(previous + rest, RemovedNames(previous, current)) == KeptTools(previous, current) + rest
  {
    if previous == [] {
      assert previous + rest == rest;
    } else {
      var init, t := previous[..|previous|-1], previous[|previous|-1];
      assert previous + rest == init + ([t] + rest);
      DeleteRemoved(init, current, [t] + rest);
      var kept := KeptTools(init, current);
      if Find(current, t.name) == Some(t) {
        assert kept + ([t] + rest) == (kept + [t]) + rest;
      } else {
        KeptFrom(init, current);
        forall k | 0 <= k < |kept| ensures kept[k].name != t.name {
          assert kept[k] in kept;
          var p :| 0 <= p < |init| && init[p] == kept[k];
          assert (previous + rest)[p] == init[p] && (previous + rest)[|init|] == t;
        }
        forall k | 0 <= k < |rest| ensures rest[k].name != t.name {
          assert (previous + rest)[|previous| + k] == rest[k] && (previous + rest)[|init|] == t;
        }
        DeleteOne(kept, t, rest);
      }
    }
  }

  lemma DeleteSingle(t: Tool)
    ensures Delete([t], t.name) == []
  {
    assert [t][..0] == [];
  }

  lemma DeleteOne(before: seq<Tool>, t: Tool, after: seq<Tool>)
    requires forall k :: 0 <= k < |before| ==> before[k].name != t.name
    requires forall k :: 0 <= k < |after| ==> after[k].name != t.name
    ensures Delete(before + ([t] + after), t.name) == before + after
  {
    DeleteAbsent(before, t.name);
    DeleteAbsent(after, t.name);
    DeleteConcat(before, [t] + after, t.name);
    DeleteConcat([t], after, t.name);
    DeleteSingle(t);
    assert [] + after == after;
  }

  lemma {:induction false} KeptFrom(previous: seq<Tool>, current: seq<Tool>)
    ensures forall t <- KeptTools(previous, current) :: t in previous && Find(current, t.name) == Some(t)
  {
    if previous != [] {
      KeptFrom(previous[..|previous|-1], current);
    }
  }

  lemma {:induction false} DeleteAbsent(ts: seq<Tool>, n: string)
    requires forall k :: 0 <= k < |ts| ==> ts[k].name != n
    ensures Delete(ts, n) == ts
  {
    if ts != [] {
      DeleteAbsent(ts[..|ts|-1], n);
    }
  }

  lemma {:induction false} DeleteConcat(a: seq<Tool>, b: seq<Tool>, n: string)
    ensures Delete(a + b, n) == Delete(a, n) + Delete(b, n)
  {
    if b == [] {
      assert a + b == a;
    } else {
      DeleteConcat(a, b[..|b|-1], n);
      assert (a + b)[..|a + b|-1] == a + b[..|b|-1];
    }
  }

  lemma {:induction false} SetFresh(ts: seq<Tool>, added: seq<Tool>)
    requires UniqueNames(ts + added)
    ensures SetAll(ts, added) == ts + added
  {
    if added != [] {
      var init, t := added[..|added|-1], added[|added|-1];
      assert ts + added == (ts + init) + [t];
      assert forall k :: 0 <= k < |ts + init| ==> (ts + init)[k] == (ts + added)[k];
      SetFresh(ts, init);
      forall k | 0 <= k < |ts + init| ensures (ts + init)[k].name != t.name {
        assert (ts + added)[k] == (ts + init)[k] && (ts + added)[|ts + init|] == t;
      }
      SetAbsent(ts + init, t);
    } else {
      assert ts + added == ts;
    }
  }

  lemma SetAbsent(ts: seq<Tool>, t: Tool)
    requires forall k :: 0 <= k < |ts| ==> ts[k].name != t.name
    ensures Set(ts, t) == ts + [t]
  {
    assert !HasName(ts, t.name);
    assert ts != [] ==> forall k :: 0 <= k < |ts| - 1 ==> ts[..|ts|-1][k] == ts[k];
  }

  lemma {:induction false} AddedFrom(previous: seq<Tool>, current: seq<Tool>)
    requires UniqueNames(current)
    ensures UniqueNames(AddedTools(previous, current))
    ensures forall t <- AddedTools(previous, current) :: t in current && Find(previous, t.name) != Some(t)
  {
    if current != [] {
      var init, t := current[..|current|-1], current[|current|-1];
      AddedFrom(previous, init);
      var a := AddedTools(previous, init);
      forall k | 0 <= k < |a| ensures a[k].name != t.name {
        assert a[k] in a && a[k] in init;
      }
    }
  }

  lemma {:induction false} KeptUnique(previous: seq<Tool>, current: seq<Tool>)
    requires UniqueNames(previous)
    ensures UniqueNames(KeptTools(previous, current))
  {
    if previous != [] {
      var init, t := previous[..|previous|-1], previous[|previous|-1];
      KeptUnique(init, current);
      KeptFrom(init, current);
      var a := KeptTools(init, current);
      forall k | 0 <= k < |a| ensures a[k].name != t.name {
        assert a[k] in a && a[k] in init;
      }
    }
  }

  /** The replayed list: surviving declarations in their old order, then the new ones in theirs. */
  lemma ReplayOrder(previous: seq<Tool>, current: seq<Tool>)
    requires UniqueNames(previous) && UniqueNames(current)
    ensures Apply(previous, Difference(previous, current)) == KeptTools(previous, current)
      + AddedTools(previous, current)
  {
    DeleteRemoved(previous, current, []);
    assert previous + [] == previous;
    var kept, added := KeptTools(previous, current), AddedTools(previous, current);
    assert kept + [] == kept;
    KeptUnique(previous, current);
    KeptFrom(previous, current);
    AddedFrom(previous, current);
    forall i, j | 0 <= i < |kept| && 0 <= j < |added| ensures kept[i].name != added[j].name {
      assert kept[i] in kept && added[j] in added;
      var p :| 0 <= p < |previous| && previous[p] == kept[i];
      UniqueFinds(previous, p);
      var q :| 0 <= q < |current| && current[q] == added[j];
      UniqueFinds(current, q);
    }
    SetFresh(kept, added);
  }

  lemma {:induction false} AddedAfter(previous: seq<Tool>, current: seq<Tool>, k: nat)
    requires UniqueNames(current) && k <= |current|
    requires forall i :: 0 <= i < k ==> Find(previous, current[i].name) == Some(current[i])
    requires forall i :: k <= i < |current| ==> Find(previous, current[i].name) != Some(current[i])
    ensures AddedTools(previous, current) == current[k..]
  {
    if current != [] {
      var init, t := current[..|current|-1], current[|current|-1];
      if k < |current| {
        AddedAfter(previous, init, k);
        assert current[k..] == init[k..] + [t];
      } else {
        AddedAfter(previous, init, k - 1);
      }
    }
  }

  lemma {:induction false} KeptContains(previous: seq<Tool>, current: seq<Tool>, t: Tool)
    requires t in previous && Find(current, t.name) == Some(t)
    ensures t in KeptTools(previous, current)
  {
    var init := previous[..|previous|-1];
    if t != previous[|previous|-1] {
      assert t in init;
      KeptContains(init, current, t);
    }
  }

  /**
   * The replay is the tool list itself, order included, exactly when its names are unique and the survivors
   * lead it.
   */
  lemma ReplayOrderIsExact(transcript: seq<Message>, tools: seq<Tool>, pending: seq<Message>)
    ensures (CurrentTools(transcript + DeclareToolChanges(transcript, tools, pending)) == tools
      <==> UniqueNames(tools) && KeptTools(Declared(transcript, pending), tools) <= tools)
  {
    DeclaredReplay(transcript, tools, pending);
    CurrentToolsUnique(transcript + DeclareToolChanges(transcript, tools, pending));
    CurrentToolsUnique(transcript + Baseline(pending));
    if UniqueNames(tools) {
      DifferenceOrderIsExact(Declared(transcript, pending), tools);
    }
  }

  lemma DifferenceOrderIsExact(previous: seq<Tool>, current: seq<Tool>)
    requires UniqueNames(previous) && UniqueNames(current)
    ensures Apply(previous, Difference(previous, current)) == current <==> KeptTools(previous, current) <= current
  {
    ReplayOrder(previous, current);
    PrefixSplit(KeptTools(previous, current), AddedTools(previous, current), current);
    if KeptTools(previous, current) <= current {
      SurvivorsLead(previous, current);
    }
  }

  lemma PrefixSplit(a: seq<Tool>, b: seq<Tool>, c: seq<Tool>)
    ensures a + b == c <==> a <= c && b == c[|a|..]
  {
    if a <= c && b == c[|a|..] {
      assert c == c[..|a|] + c[|a|..];
    }
  }

  lemma SurvivorsLead(previous: seq<Tool>, current: seq<Tool>)
    requires UniqueNames(previous) && UniqueNames(current) && KeptTools(previous, current) <= current
    ensures AddedTools(previous, current) == current[|KeptTools(previous, current)|..]
  {
    var kept := KeptTools(previous, current);
    forall i | 0 <= i < |kept| ensures Find(previous, current[i].name) == Some(current[i]) {
      KeptFrom(previous, current);
      assert kept[i] in kept;
      var p :| 0 <= p < |previous| && previous[p] == kept[i];
      UniqueFinds(previous, p);
    }
    forall i | |kept| <= i < |current| ensures Find(previous, current[i].name) != Some(current[i]) {
      BeyondKept(previous, current, i);
    }
    AddedAfter(previous, current, |kept|);
  }

  lemma BeyondKept(previous: seq<Tool>, current: seq<Tool>, i: nat)
    requires UniqueNames(previous) && UniqueNames(current)
    requires KeptTools(previous, current) <= current && |KeptTools(previous, current)| <= i < |current|
    ensures Find(previous, current[i].name) != Some(current[i])
  {
    var kept := KeptTools(previous, current);
    if Find(previous, current[i].name) == Some(current[i]) {
      FindHasName(previous, current[i].name);
      UniqueFinds(current, i);
      KeptContains(previous, current, current[i]);
    }
  }

  // ----- What the result leaves alone -----

  /** A system message without its tool fields. */
  function Bare(m: Message): Message {
    if m.System? then System(m.text, [], []) else m
  }

  /** Only the last pending system message's tool fields change, or one empty update goes in front. */
  lemma OnlyToolFieldsChange(transcript: seq<Message>, tools: seq<Tool>, pending: seq<Message>)
    ensures var r := DeclareToolChanges(transcript, tools, pending);
      && NonSystem(r) == NonSystem(pending)
      && (LastSystem(pending) >= 0 ==>
            && |r| == |pending|
            && (forall j :: 0 <= j < |r| && j != LastSystem(pending) ==> r[j] == pending[j])
            && Bare(r[LastSystem(pending)]) == Bare(pending[LastSystem(pending)]))
      && (LastSystem(pending) < 0 ==> r == pending || (r != [] && r[0].System? && r[0].text == "" && r[1..] == pending))
  {
    var r := DeclareToolChanges(transcript, tools, pending);
    var i := LastSystem(pending);
    if i >= 0 {
      ReplacedSystem(pending, i, r[i]);
      assert r == pending[i := r[i]];
    } else if r != pending {
      assert FirstNonSystem(pending) == 0;
      assert r == [r[0]] + pending;
      NonSystemConcat([r[0]], pending);
      assert NonSystem([r[0]]) == [];
    }
  }

  lemma ReplacedSystem(ms: seq<Message>, i: nat, m: Message)
    requires i < |ms| && ms[i].System? && m.System?
    ensures NonSystem(ms[i := m]) == NonSystem(ms)
  {
    assert ms[i := m] == (ms[..i] + [m]) + ms[i+1..];
    assert ms == (ms[..i] + [ms[i]]) + ms[i+1..];
    NonSystemConcat(ms[..i] + [m], ms[i+1..]);
    NonSystemConcat(ms[..i] + [ms[i]], ms[i+1..]);
    assert (ms[..i] + [m])[..i] == ms[..i] && (ms[..i] + [ms[i]])[..i] == ms[..i];
  }

  /** Once the result is committed, declaring the same tools again adds nothing. */
  lemma SecondCallAddsNothing(transcript: seq<Message>, tools: seq<Tool>, pending: seq<Message>)
    requires UniqueNames(tools)
    ensures DeclareToolChanges(transcript + DeclareToolChanges(transcript, tools, pending), tools, []) == []
  {
    var committed := transcript + DeclareToolChanges(transcript, tools, pending);
    ReplayIsExact(transcript, tools, pending);
    assert committed + Baseline([]) == committed;
    var now := Declared(committed, []);
    CurrentToolsUnique(committed);
    AddedNothing(now, tools);
    RemovedNothing(now, tools, now);
  }

  lemma {:induction false} AddedNothing(previous: seq<Tool>, current: seq<Tool>)
    requires UniqueNames(current)
    requires forall i :: 0 <= i < |current| ==> Find(previous, current[i].name) == Find(current, current[i].name)
    ensures AddedTools(previous, current) == []
  {
    forall i | 0 <= i < |current| ensures Find(previous, current[i].name) == Some(current[i]) {
      UniqueFinds(current, i);
    }
    AddedAfter(previous, current, |current|);
  }

  lemma {:induction false} RemovedNothing(previous: seq<Tool>, current: seq<Tool>, ts: seq<Tool>)
    requires UniqueNames(ts) && previous <= ts
    requires forall n :: Find(ts, n) == Find(current, n)
    ensures RemovedNames(previous, current) == []
  {
    if previous != [] {
      RemovedNothing(previous[..|previous|-1], current, ts);
      UniqueFinds(ts, |previous| - 1);
    }
  }
}
