/**
 * The assignment editors of the console keep three lists of keys next to the list that is already
 * stored on the server (the baseline): `checked` (what the checkboxes show), `added` (to be assigned)
 * and `removed` (to be unassigned). This module holds the toggle rule they share and its invariant,
 * and the plain membership toggle used by the accordions and the new-role permission picker.
 */
module AssignmentDiff {
  import opened Seqs

  datatype Diff = Diff(checked: seq<string>, added: seq<string>, removed: seq<string>)

  /** The state right after the baseline has been loaded into the checkboxes. */
  function Start(baseline: seq<string>): Diff
  {
    Diff(baseline, [], [])
  }

  /**
   * A click on the checkbox of `key`. A checked key loses every copy from `checked` and then
   * leaves `added` if it was there, or else joins `removed`; an unchecked key joins `checked` and
   * then leaves `removed` if it was there, or else joins `added`.
   */
  function Toggle(d: Diff, key: string): (r: Diff)
    ensures key in r.checked <==> key !in d.checked
    ensures key in d.checked && key in d.added ==> r.removed == d.removed && key !in r.added
    ensures key in d.checked && key !in d.added ==> r.added == d.added && r.removed == d.removed + [key]
    ensures key !in d.checked && key in d.removed ==> r.added == d.added && key !in r.removed
    ensures key !in d.checked && key !in d.removed ==> r.removed == d.removed && r.added == d.added + [key]
  {
    if key in d.checked then
      var checked := RemoveAll(d.checked, key);
      if key in d.added then Diff(checked, RemoveAll(d.added, key), d.removed)
      else Diff(checked, d.added, d.removed + [key])
    else
      var checked := d.checked + [key];
      if key in d.removed then Diff(checked, d.added, RemoveAll(d.removed, key))
      else Diff(checked, d.added + [key], d.removed)
  }

  /** The clicks of a session, one after the other. */
  function ToggleAll(d: Diff, keys: seq<string>): Diff
    decreases |keys|
  {
    if keys == [] then d else ToggleAll(Toggle(d, keys[0]), keys[1..])
  }

  /**
   * The diff describes the checkboxes against the baseline: as sets, `added` is `checked` minus the
   * baseline and `removed` is the baseline minus `checked`.
   */
  ghost predicate Consistent(d: Diff, baseline: set<string>)
  {
    forall k :: (k in d.added <==> k in d.checked && k !in baseline)
             && (k in d.removed <==> k in baseline && k !in d.checked)
  }

  ghost predicate NoDuplicates(d: Diff)
  {
    NoDup(d.checked) && NoDup(d.added) && NoDup(d.removed)
  }

  /** Consistency makes `added` and `removed` disjoint. */
  lemma ConsistentDisjoint(d: Diff, baseline: set<string>)
    requires Consistent(d, baseline)
    ensures forall k :: k in d.added ==> k !in d.removed
  {
  }

  lemma StartConsistent(baseline: seq<string>)
    ensures Consistent(Start(baseline), set k | k in baseline)
  {
  }

  /** One click keeps the diff consistent with the baseline. */
  lemma ToggleKeepsConsistent(d: Diff, baseline: set<string>, key: string)
    requires Consistent(d, baseline)
    ensures Consistent(Toggle(d, key), baseline)
  {
    var r := Toggle(d, key);
    RemoveAllMembership(d.checked, key);
    RemoveAllMembership(d.added, key);
    RemoveAllMembership(d.removed, key);
    forall k ensures (k in r.added <==> k in r.checked && k !in baseline)
                  && (k in r.removed <==> k in baseline && k !in r.checked)
    {
      assert k in d.added <==> k in d.checked && k !in baseline;
      assert k in d.removed <==> k in baseline && k !in d.checked;
    }
  }

  /** One click never introduces a duplicate into a consistent diff. */
  lemma ToggleKeepsNoDuplicates(d: Diff, baseline: set<string>, key: string)
    requires Consistent(d, baseline) && NoDuplicates(d)
    ensures NoDuplicates(Toggle(d, key))
  {
    if key in d.checked {
      RemoveAllKeepsNoDup(d.checked, key);
      if key in d.added {
        RemoveAllKeepsNoDup(d.added, key);
      } else {
        assert key !in d.removed;
        AppendKeepsNoDup(d.removed, key);
      }
    } else {
      AppendKeepsNoDup(d.checked, key);
      if key in d.removed {
        RemoveAllKeepsNoDup(d.removed, key);
      } else {
        assert key !in d.added;
        AppendKeepsNoDup(d.added, key);
      }
    }
  }

  /**
   * Starting from the baseline with empty diffs, every sequence of clicks leaves `added` equal to
   * `checked` minus the baseline and `removed` equal to the baseline minus `checked`, as sets.
   */
  lemma {:induction false} ToggleAllConsistent(d: Diff, baseline: set<string>, keys: seq<string>)
    requires Consistent(d, baseline)
    ensures Consistent(ToggleAll(d, keys), baseline)
    decreases |keys|
  {
    if keys != [] {
      ToggleKeepsConsistent(d, baseline, keys[0]);
      ToggleAllConsistent(Toggle(d, keys[0]), baseline, keys[1..]);
    }
  }

  lemma FromStartConsistent(baseline: seq<string>, keys: seq<string>)
    ensures Consistent(ToggleAll(Start(baseline), keys), set k | k in baseline)
  {
    StartConsistent(baseline);
    ToggleAllConsistent(Start(baseline), (set k | k in baseline), keys);
  }

  /** Two clicks on the same key restore the three lists as sets. */
  lemma ToggleTwiceRestoresSets(d: Diff, baseline: set<string>, key: string)
    requires Consistent(d, baseline)
    ensures forall k :: (k in Toggle(Toggle(d, key), key).checked <==> k in d.checked)
                     && (k in Toggle(Toggle(d, key), key).added <==> k in d.added)
                     && (k in Toggle(Toggle(d, key), key).removed <==> k in d.removed)
  {
    ToggleKeepsConsistent(d, baseline, key);
    var r := Toggle(d, key);
    var r2 := Toggle(r, key);
    ToggleKeepsConsistent(r, baseline, key);
    RemoveAllMembership(d.checked, key);
    RemoveAllMembership(r.checked, key);
    forall k ensures k in r2.checked <==> k in d.checked {
    }
  }

  /** A key that none of the lists holds comes back exactly to where it was after two clicks. */
  lemma ToggleTwiceFreshKey(d: Diff, key: string)
    requires key !in d.checked && key !in d.added && key !in d.removed
    ensures Toggle(Toggle(d, key), key) == d
  {
    assert RemoveAll(d.checked + [key], key) == RemoveAll(d.checked, key) by {
      RemoveAllAppend(d.checked, key);
    }
    assert RemoveAll(d.added + [key], key) == RemoveAll(d.added, key) by {
      RemoveAllAppend(d.added, key);
    }
  }

  lemma {:induction false} RemoveAllAppend(s: seq<string>, x: string)
    ensures RemoveAll(s + [x], x) == RemoveAll(s, x)
  {
    if s == [] {
      assert [] + [x] == [x];
      assert [x][1..] == [];
    } else {
      assert (s + [x])[1..] == s[1..] + [x];
      RemoveAllAppend(s[1..], x);
    }
  }

  // ---- plain membership toggle (accordions, permission picker) ----

  /** `xs.includes(x) ? xs.filter(y => y !== x) : [...xs, x]`. */
  function ToggleMember(xs: seq<string>, x: string): (r: seq<string>)
    ensures x in r <==> x !in xs
    ensures forall k :: k != x ==> (k in r <==> k in xs)
  {
    RemoveAllMembership(xs, x);
    if x in xs then RemoveAll(xs, x) else xs + [x]
  }

  lemma ToggleMemberKeepsNoDup(xs: seq<string>, x: string)
    requires NoDup(xs)
    ensures NoDup(ToggleMember(xs, x))
  {
    if x in xs {
      RemoveAllKeepsNoDup(xs, x);
    } else {
      AppendKeepsNoDup(xs, x);
    }
  }

  /** Two clicks restore membership; from an absent key they restore the list itself. */
  lemma ToggleMemberTwice(xs: seq<string>, x: string)
    ensures forall k :: k in ToggleMember(ToggleMember(xs, x), x) <==> k in xs
    ensures x !in xs ==> ToggleMember(ToggleMember(xs, x), x) == xs
  {
    if x !in xs {
      RemoveAllAppend(xs, x);
    }
  }

  /** The membership toggles of a session, one after the other. */
  function ToggleMemberAll(xs: seq<string>, clicks: seq<string>): seq<string>
  {
    if clicks == [] then xs else ToggleMember(ToggleMemberAll(xs, clicks[..|clicks| - 1]), clicks[|clicks| - 1])
  }

  function Occurrences(clicks: seq<string>, k: string): nat
  {
    if clicks == [] then 0
    else Occurrences(clicks[..|clicks| - 1], k) + (if clicks[|clicks| - 1] == k then 1 else 0)
  }

  /**
   * From an empty list, a key is present exactly when it was clicked an odd number of times, and
   * no key is ever present twice.
   */
  lemma {:induction false} ToggleMemberAllParity(clicks: seq<string>)
    ensures NoDup(ToggleMemberAll([], clicks))
    ensures forall k :: k in ToggleMemberAll([], clicks) <==> Occurrences(clicks, k) % 2 == 1
  {
    if clicks != [] {
      var p := clicks[..|clicks| - 1];
      var x := clicks[|clicks| - 1];
      var before := ToggleMemberAll([], p);
      ToggleMemberAllParity(p);
      ToggleMemberKeepsNoDup(before, x);
      assert ToggleMemberAll([], clicks) == ToggleMember(before, x);
      forall k ensures k in ToggleMember(before, x) <==> Occurrences(clicks, k) % 2 == 1 {
        ParityStep(before, x, k, Occurrences(p, k), Occurrences(clicks, k));
      }
    }
  }

  /** One click flips the parity of its own key and the membership of its own key only. */
  lemma ParityStep(before: seq<string>, x: string, k: string, n: nat, m: nat)
    requires k in before <==> n % 2 == 1
    requires m == n + (if x == k then 1 else 0)
    ensures k in ToggleMember(before, x) <==> m % 2 == 1
  {
    var r := ToggleMember(before, x);
    if x == k {
      assert k in r <==> k !in before;
      assert m % 2 == 1 <==> n % 2 == 0;
    } else {
      assert k in r <==> k in before;
    }
  }
}
