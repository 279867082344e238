/** Properties of the actions: the index-removal rule, actions that undo each other,
    repeated theme toggles, step-based counter arithmetic and notification order. */
module Properties {
  import opened AppState

  /** `removeNotification(index)` drops exactly the element at `index` when it is a
      position of the list, and leaves the list as it was otherwise. */
  lemma {:induction false} RemoveAtSlices<T>(s: seq<T>, index: int)
    ensures 0 <= index < |s| ==> RemoveAt(s, index) == s[..index] + s[index + 1..]
    ensures !(0 <= index < |s|) ==> RemoveAt(s, index) == s
  {
    if s != [] {
      var last := |s| - 1;
      RemoveAtSlices(s[..last], index);
      if last == index {
        assert s[index + 1..] == [];
        assert s[..last][..index] == s[..index];
      } else if 0 <= index < last {
        assert s[..last][..index] == s[..index];
        assert s[..last][index + 1..] + [s[last]] == s[index + 1..];
      } else {
        assert s[..last] + [s[last]] == s;
      }
    }
  }

  /** Element by element: positions before `index` are kept where they were, the
      positions after it move down by one. */
  lemma RemoveAtShifts<T>(s: seq<T>, index: int, k: int)
    requires 0 <= index < |s| && 0 <= k < |s| - 1
    ensures RemoveAt(s, index)[k] == if k < index then s[k] else s[k + 1]
  {
    RemoveAtSlices(s, index);
  }

  /** Pairs of actions that undo each other: `increment` and `decrement` with the same
      step, two `toggleTheme`s, and removing the notification just added. */
  lemma InversePairs(s: State)
    ensures Apply(Apply(s, Increment), Decrement) == s
    ensures Apply(Apply(s, Decrement), Increment) == s
    ensures Apply(Apply(s, ToggleTheme), ToggleTheme) == s
    ensures forall m :: Apply(Apply(s, AddNotification(m)), RemoveNotification(|s.notifications|)) == s
  {
    forall m: string
      ensures Apply(Apply(s, AddNotification(m)), RemoveNotification(|s.notifications|)) == s
    {
      var added := Appended(s.notifications, m);
      RemoveAtSlices(added, |s.notifications|);
      assert added[..|s.notifications|] == s.notifications;
    }
  }

  /** Actions whose new slice does not depend on the one they replace. */
  predicate Overwrites(a: Action)
  {
    a.Login? || a.Logout? || a.UpdateName? || a.SetPrimaryColor? ||
    a.Reset? || a.SetCount? || a.SetStep? || a.ClearNotifications?
  }

  /** Applying such an action a second time changes nothing; `logout` is one of them. */
  lemma OverwritesAreIdempotent(s: State, a: Action)
    requires Overwrites(a)
    ensures Apply(Apply(s, a), a) == Apply(s, a)
  {
  }

  /** The empty, logged-out user holds in the initial state and after `logout`,
      whatever the user was before. */
  lemma LogoutEmptiesUser(s: State)
    ensures Initial.user == User("", "", false)
    ensures Apply(s, Logout).user == User("", "", false)
  {
  }

  /** `n` toggles in a row: the colour and the other slices never change and the mode
      alternates, so an even number restores the state. */
  function Repeat(a: Action, n: nat): (r: seq<Action>)
    ensures |r| == n && forall k :: 0 <= k < n ==> r[k] == a
  {
    seq(n, _ => a)
  }

  lemma {:induction false} RepeatedToggles(s: State, n: nat)
    ensures Run(s, Repeat(ToggleTheme, n)) == if n % 2 == 0 then s else Apply(s, ToggleTheme)
  {
    if n > 0 {
      assert Repeat(ToggleTheme, n)[..n - 1] == Repeat(ToggleTheme, n - 1);
      RepeatedToggles(s, n - 1);
      InversePairs(s);
    }
  }

  /** The step in effect after `acts`: the argument of the last `setStep`, or `step`
      when `acts` sets none. */
  function StepInEffect(step: int, acts: seq<Action>): (r: int)
    decreases |acts|
  {
    if acts == [] then step
    else
      match acts[|acts| - 1]
      case SetStep(value) => value
      case _ => StepInEffect(step, acts[..|acts| - 1])
  }

  /** The step in effect when each increment (plus) and each decrement (minus) is
      applied, summed over `acts`. */
  function StepSum(step: int, acts: seq<Action>): (r: int)
    decreases |acts|
  {
    if acts == [] then 0
    else
      var before := acts[..|acts| - 1];
      var delta :=
        match acts[|acts| - 1]
        case Increment => StepInEffect(step, before)
        case Decrement => -StepInEffect(step, before)
        case _ => 0;
      StepSum(step, before) + delta
  }

  /** None of `acts` replaces the count outright. */
  predicate KeepsCount(acts: seq<Action>)
  {
    forall k :: 0 <= k < |acts| ==> !acts[k].Reset? && !acts[k].SetCount?
  }

  /** With no `reset` or `setCount` among the actions, the final count is the first
      count plus each increment's step minus each decrement's step, with every step
      read at the moment of the call; the final step is the last one set. */
  lemma {:induction false} CountIsStepSum(s: State, acts: seq<Action>)
    requires KeepsCount(acts)
    ensures Run(s, acts).count == s.count + StepSum(s.step, acts)
    ensures Run(s, acts).step == StepInEffect(s.step, acts)
    decreases |acts|
  {
    if acts != [] {
      var before := acts[..|acts| - 1];
      assert KeepsCount(before) by {
        forall k | 0 <= k < |before| ensures !before[k].Reset? && !before[k].SetCount? {
          assert before[k] == acts[k];
        }
      }
      CountIsStepSum(s, before);
    }
  }

  /** `reset` sets the count to 0 whatever the count and the step were, and leaves the
      step alone; `setStep` leaves the count alone. */
  lemma ResetAndSetStep(s: State, value: int)
    ensures Apply(s, Reset).count == 0 && Apply(s, Reset).step == s.step
    ensures Apply(s, SetStep(value)).count == s.count && Apply(s, SetStep(value)).step == value
  {
  }

  /** From the initial state: `setStep(5)`, two increments give 10; then `setStep(1)`
      and a decrement give 9. */
  lemma CounterScenario()
    ensures Run(Initial, [SetStep(5), Increment, Increment]).count == 10
    ensures Run(Initial, [SetStep(5), Increment, Increment, SetStep(1), Decrement]).count == 9
  {
    var a1 := [SetStep(5)];
    var a2 := a1 + [Increment];
    var a3 := a2 + [Increment];
    var a4 := a3 + [SetStep(1)];
    var a5 := a4 + [Decrement];
    assert a1[..0] == [] && a2[..1] == a1 && a3[..2] == a2 && a4[..3] == a3 && a5[..4] == a4;
    assert Run(Initial, a1) == Initial.(step := 5);
    assert Run(Initial, a2).count == 5;
    assert Run(Initial, a3) == Initial.(step := 5, count := 10);
    assert Run(Initial, a4) == Initial.(count := 10);
    assert a3 == [SetStep(5), Increment, Increment];
    assert a5 == [SetStep(5), Increment, Increment, SetStep(1), Decrement];
  }

  /** One `addNotification` per message. */
  function Adds(messages: seq<string>): (r: seq<Action>)
    ensures |r| == |messages|
    ensures forall k :: 0 <= k < |r| ==> r[k] == AddNotification(messages[k])
  {
    seq(|messages|, k requires 0 <= k < |messages| => AddNotification(messages[k]))
  }

  /** Adding messages one after another appends them in insertion order and touches
      nothing else. */
  lemma {:induction false} AddsKeepOrder(s: State, messages: seq<string>)
    ensures Run(s, Adds(messages)) == s.(notifications := s.notifications + messages)
    decreases |messages|
  {
    if messages != [] {
      var n := |messages| - 1;
      assert Adds(messages)[..n] == Adds(messages[..n]);
      AddsKeepOrder(s, messages[..n]);
      assert s.notifications + messages[..n] + [messages[n]] == s.notifications + messages;
    }
  }

  /** Whatever was added before, `clearNotifications` leaves the list empty; two adds
      append their messages in call order. */
  lemma AddThenClear(s: State, m: string)
    ensures Run(s, [AddNotification(m), ClearNotifications]).notifications == []
    ensures Run(s, [AddNotification("a"), AddNotification("b")]).notifications
            == s.notifications + ["a", "b"]
  {
  }

  /** `updateName` sets the name even while nobody is logged in, so a logged-out user
      need not have an empty name. */
  lemma RenameWhileLoggedOut()
    ensures var u := Apply(Initial, UpdateName("Jane Doe")).user;
            !u.isLoggedIn && u.name == "Jane Doe"
  {
  }
}
