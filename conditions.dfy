/**
 * The condition records a resource status carries, the condition set a
 * resource kind registers, and the pure specification of the condition
 * manager that every status in the repository reaches through
 * `CondSet.Manage(status)`.
 *
 * The manager itself lives in a library outside this repository.  What is
 * fixed here is only what the call sites and the Trigger lifecycle test pin
 * down: lookup is by type, initialisation fills missing types with Unknown,
 * the list is kept sorted by type, and the top-level condition is True
 * exactly when every registered dependent is True, False as soon as one is
 * False, and Unknown otherwise.  Types that are not registered are recorded
 * but never gate readiness.
 */
module Conditions {
  import opened Wrappers

  type ConditionType = string

  /** The top-level type of every living condition set. */
  const Ready: ConditionType := "Ready"

  datatype ConditionStatus = True | False | Unknown

  datatype Condition = Condition(condType: ConditionType, status: ConditionStatus, reason: string, message: string)

  /** A condition of the given type and status with empty reason and message. */
  function Blank(t: ConditionType, s: ConditionStatus): Condition
  {
    Condition(t, s, "", "")
  }

  /** A resource kind's registration: the top-level type and its dependents. */
  datatype ConditionSet = ConditionSet(happy: ConditionType, dependents: seq<ConditionType>)
  {
    predicate WellFormed()
    {
      happy !in dependents
    }

    /** Every registered type, the top-level one first. */
    function Types(): seq<ConditionType>
    {
      [happy] + dependents
    }
  }

  // ---------------------------------------------------------------------
  // Order on condition types: the byte-wise `<` on Go strings.  Dafny's
  // characters are Unicode scalar values, whose order is the order of their
  // UTF-8 encodings, so comparing characters compares the bytes.
  // ---------------------------------------------------------------------

  predicate TypeLess(a: string, b: string)
    decreases |a|
  {
    if |a| == 0 then |b| > 0
    else |b| > 0 && (a[0] < b[0] || (a[0] == b[0] && TypeLess(a[1..], b[1..])))
  }

  lemma {:induction false} TypeLessIrreflexive(a: string)
    ensures !TypeLess(a, a)
    decreases |a|
  {
    if |a| > 0 {
      TypeLessIrreflexive(a[1..]);
    }
  }

  lemma {:induction false} TypeLessTransitive(a: string, b: string, c: string)
    requires TypeLess(a, b) && TypeLess(b, c)
    ensures TypeLess(a, c)
    decreases |a|
  {
    if |a| > 0 && a[0] == b[0] && b[0] == c[0] {
      TypeLessTransitive(a[1..], b[1..], c[1..]);
    }
  }

  lemma {:induction false} TypeLessTotal(a: string, b: string)
    requires a != b
    ensures TypeLess(a, b) || TypeLess(b, a)
    decreases |a|
  {
    if |a| > 0 && |b| > 0 && a[0] == b[0] {
      assert a == [a[0]] + a[1..] && b == [b[0]] + b[1..];
      TypeLessTotal(a[1..], b[1..]);
    }
  }

  lemma TypeLessAsymmetric(a: string, b: string)
    requires TypeLess(a, b)
    ensures !TypeLess(b, a)
  {
    if TypeLess(b, a) {
      TypeLessTransitive(a, b, a);
      TypeLessIrreflexive(a);
    }
  }

  // ---------------------------------------------------------------------
  // Condition lists
  // ---------------------------------------------------------------------

  /** Every condition in `cs` has a type above `t`. */
  predicate Above(t: ConditionType, cs: seq<Condition>)
  {
    forall x :: x in cs ==> TypeLess(t, x.condType)
  }

  /** Strictly sorted by type; in particular at most one condition per type. */
  predicate Sorted(cs: seq<Condition>)
  {
    |cs| == 0 || (Above(cs[0].condType, cs[1..]) && Sorted(cs[1..]))
  }

  /** A condition below the head of a sorted list can be put in front of it. */
  lemma SortedCons(c: Condition, cs: seq<Condition>)
    requires Sorted(cs)
    requires |cs| == 0 || TypeLess(c.condType, cs[0].condType)
    ensures Sorted([c] + cs)
  {
    var l := [c] + cs;
    assert l[1..] == cs;
    forall x | x in cs ensures TypeLess(c.condType, x.condType) {
      if x != cs[0] {
        assert x in cs[1..];
        TypeLessTransitive(c.condType, cs[0].condType, x.condType);
      }
    }
  }

  /** The first stored condition of type `t` (GetCondition). */
  function Lookup(cs: seq<Condition>, t: ConditionType): (r: Option<Condition>)
    ensures r.Some? ==> r.value in cs && r.value.condType == t
    ensures r.None? <==> forall i :: 0 <= i < |cs| ==> cs[i].condType != t
  {
    if |cs| == 0 then None
    else if cs[0].condType == t then Some(cs[0])
    else Lookup(cs[1..], t)
  }

  /** The status the aggregation sees: an absent condition counts as Unknown. */
  function StatusOf(cs: seq<Condition>, t: ConditionType): ConditionStatus
  {
    match Lookup(cs, t)
    case Some(c) => c.status
    case None => Unknown
  }

  function ReasonOf(cs: seq<Condition>, t: ConditionType): string
  {
    match Lookup(cs, t)
    case Some(c) => c.reason
    case None => ""
  }

  function MessageOf(cs: seq<Condition>, t: ConditionType): string
  {
    match Lookup(cs, t)
    case Some(c) => c.message
    case None => ""
  }

  /** At most one condition per type, as in every list the manager keeps. */
  predicate UniqueTypes(cs: seq<Condition>)
  {
    forall i, j :: 0 <= i < j < |cs| ==> cs[i].condType != cs[j].condType
  }

  /**
   * When no type is repeated, the lookup of a stored condition's type finds
   * that condition, wherever it sits in the list.
   */
  lemma {:induction false} LookupFindsStored(cs: seq<Condition>, x: Condition)
    requires UniqueTypes(cs) && x in cs
    ensures Lookup(cs, x.condType) == Some(x)
  {
    if cs[0] != x {
      var k :| 0 <= k < |cs| && cs[k] == x;
      assert cs[0].condType != cs[k].condType;
      assert cs[1..][k - 1] == x;
      assert UniqueTypes(cs[1..]) by {
        forall i, j | 0 <= i < j < |cs| - 1 ensures cs[1..][i].condType != cs[1..][j].condType {
          assert cs[1..][i] == cs[i + 1] && cs[1..][j] == cs[j + 1];
        }
      }
      LookupFindsStored(cs[1..], x);
    }
  }

  /** A sorted list repeats no type. */
  lemma {:induction false} SortedUniqueTypes(cs: seq<Condition>)
    requires Sorted(cs)
    ensures UniqueTypes(cs)
  {
    if |cs| > 0 {
      SortedUniqueTypes(cs[1..]);
      forall i, j | 0 <= i < j < |cs| ensures cs[i].condType != cs[j].condType {
        assert cs[j] == cs[1..][j - 1];
        if i == 0 {
          assert cs[j] in cs[1..];
          TypeLessIrreflexive(cs[j].condType);
        } else {
          assert cs[i] == cs[1..][i - 1];
        }
      }
    }
  }

  /** In particular, in a sorted list a stored condition is what its type's lookup returns. */
  lemma LookupFindsStoredSorted(cs: seq<Condition>, x: Condition)
    requires Sorted(cs) && x in cs
    ensures Lookup(cs, x.condType) == Some(x)
  {
    SortedUniqueTypes(cs);
    LookupFindsStored(cs, x);
  }

  /** The set of types present in a list. */
  function TypeSet(cs: seq<Condition>): set<ConditionType>
  {
    set x | x in cs :: x.condType
  }

  /** A sorted list holds exactly one condition per type it mentions. */
  lemma {:induction false} SortedTypeCount(cs: seq<Condition>)
    requires Sorted(cs)
    ensures |TypeSet(cs)| == |cs|
  {
    if |cs| > 0 {
      SortedTypeCount(cs[1..]);
      assert cs == [cs[0]] + cs[1..];
      assert TypeSet(cs) == {cs[0].condType} + TypeSet(cs[1..]);
      if cs[0].condType in TypeSet(cs[1..]) {
        var x :| x in cs[1..] && x.condType == cs[0].condType;
        TypeLessIrreflexive(x.condType);
      }
    }
  }

  lemma HeadIsMember(cs: seq<Condition>)
    ensures |cs| > 0 ==> cs[0] in cs
  {
  }

  /** Two sorted lists with the same members are the same list. */
  lemma {:induction false} SortedExtensional(a: seq<Condition>, b: seq<Condition>)
    requires Sorted(a) && Sorted(b)
    requires forall x :: x in a <==> x in b
    ensures a == b
  {
    if |a| == 0 {
      HeadIsMember(b);
    } else {
      assert a[0] in a;
      assert |b| > 0 && b[0] in b;
      assert a == [a[0]] + a[1..] && b == [b[0]] + b[1..];
      if a[0] != b[0] {
        assert b[0] in a && a[0] in b;
        assert b[0] in a[1..] && a[0] in b[1..];
        TypeLessAsymmetric(a[0].condType, b[0].condType);
      }
      forall x | x in a[1..] ensures x in b[1..] {
        assert TypeLess(a[0].condType, x.condType);
        TypeLessIrreflexive(x.condType);
        assert x in b && x != b[0];
      }
      forall x | x in b[1..] ensures x in a[1..] {
        assert TypeLess(b[0].condType, x.condType);
        TypeLessIrreflexive(x.condType);
        assert x in a && x != a[0];
      }
      SortedExtensional(a[1..], b[1..]);
      assert a == [a[0]] + a[1..] == [b[0]] + b[1..] == b;
    }
  }

  /** Drops every condition of type `t`. */
  function RemoveType(cs: seq<Condition>, t: ConditionType): (r: seq<Condition>)
    ensures forall x :: x in r <==> x in cs && x.condType != t
    ensures Lookup(r, t) == None
    ensures forall u :: u != t ==> Lookup(r, u) == Lookup(cs, u)
    ensures Sorted(cs) ==> Sorted(r)
  {
    if |cs| == 0 then []
    else if cs[0].condType == t then RemoveType(cs[1..], t)
    else [cs[0]] + RemoveType(cs[1..], t)
  }

  /** Dropping a type keeps a list free of repeated types. */
  lemma {:induction false} RemoveTypeKeepsUnique(cs: seq<Condition>, t: ConditionType)
    ensures UniqueTypes(cs) ==> UniqueTypes(RemoveType(cs, t))
  {
    if |cs| > 0 && UniqueTypes(cs) {
      UniqueTail(cs);
      RemoveTypeKeepsUnique(cs[1..], t);
      if cs[0].condType != t {
        var tail := RemoveType(cs[1..], t);
        assert Lookup(tail, cs[0].condType) == None;
        var r := [cs[0]] + tail;
        forall i, j | 0 <= i < j < |r| ensures r[i].condType != r[j].condType {
          assert r[j] == tail[j - 1];
          if i > 0 {
            assert r[i] == tail[i - 1];
          }
        }
      }
    }
  }

  /**
   * Places `c` before the first condition whose type is not below its own,
   * so that `c` comes first among the conditions of its type.
   */
  function InsertSorted(cs: seq<Condition>, c: Condition): (r: seq<Condition>)
    ensures multiset(r) == multiset(cs) + multiset{c}
    ensures forall x :: x in r <==> x == c || x in cs
    ensures forall u :: u != c.condType ==> Lookup(r, u) == Lookup(cs, u)
    ensures Lookup(r, c.condType) == Some(c)
  {
    if |cs| == 0 || !TypeLess(cs[0].condType, c.condType) then [c] + cs
    else
      assert cs == [cs[0]] + cs[1..];
      TypeLessIrreflexive(c.condType);
      [cs[0]] + InsertSorted(cs[1..], c)
  }

  lemma {:induction false} InsertSortedKeepsOrder(cs: seq<Condition>, c: Condition)
    ensures Sorted(cs) && Lookup(cs, c.condType) == None ==> Sorted(InsertSorted(cs, c))
  {
    if Sorted(cs) && Lookup(cs, c.condType) == None && |cs| > 0 {
      assert cs[0].condType != c.condType;
      TypeLessTotal(cs[0].condType, c.condType);
      if !TypeLess(cs[0].condType, c.condType) {
        assert cs == [cs[0]] + cs[1..];
        forall x | x in cs ensures TypeLess(c.condType, x.condType) {
          if x != cs[0] {
            TypeLessTransitive(c.condType, cs[0].condType, x.condType);
          }
        }
      } else {
        InsertSortedKeepsOrder(cs[1..], c);
      }
    }
  }

  /** No condition in `cs` has a type below `t`. */
  predicate NotBelow(t: ConditionType, cs: seq<Condition>)
  {
    forall x :: x in cs ==> !TypeLess(x.condType, t)
  }

  /** Ordered by type, repeated types allowed: what a sort by type yields from any list. */
  predicate OrderedByType(cs: seq<Condition>)
  {
    |cs| == 0 || (NotBelow(cs[0].condType, cs[1..]) && OrderedByType(cs[1..]))
  }

  lemma {:induction false} InsertKeepsOrdered(cs: seq<Condition>, c: Condition)
    requires OrderedByType(cs)
    ensures OrderedByType(InsertSorted(cs, c))
  {
    if |cs| > 0 {
      if !TypeLess(cs[0].condType, c.condType) {
        assert cs == [cs[0]] + cs[1..];
        forall x | x in cs ensures !TypeLess(x.condType, c.condType) {
          if x != cs[0] && TypeLess(x.condType, c.condType) {
            if cs[0].condType != c.condType {
              TypeLessTotal(cs[0].condType, c.condType);
              TypeLessTransitive(x.condType, c.condType, cs[0].condType);
            }
            assert false;
          }
        }
      } else {
        InsertKeepsOrdered(cs[1..], c);
        TypeLessAsymmetric(cs[0].condType, c.condType);
      }
    }
  }

  /** The tail of a list without repeated types repeats none either. */
  lemma UniqueTail(cs: seq<Condition>)
    requires |cs| > 0 && UniqueTypes(cs)
    ensures UniqueTypes(cs[1..])
    ensures Lookup(cs[1..], cs[0].condType) == None
  {
    forall i, j | 0 <= i < j < |cs| - 1 ensures cs[1..][i].condType != cs[1..][j].condType {
      assert cs[1..][i] == cs[i + 1] && cs[1..][j] == cs[j + 1];
    }
    forall i | 0 <= i < |cs| - 1 ensures cs[1..][i].condType != cs[0].condType {
      assert cs[1..][i] == cs[i + 1];
    }
  }

  /**
   * The sort by type of the manager's write, stable: conditions of one type
   * keep their relative order, so every lookup is unchanged.
   */
  function SortByType(cs: seq<Condition>): (r: seq<Condition>)
    ensures multiset(r) == multiset(cs)
    ensures forall x :: x in r <==> x in cs
    ensures forall u :: Lookup(r, u) == Lookup(cs, u)
  {
    if |cs| == 0 then []
    else
      assert cs == [cs[0]] + cs[1..];
      InsertSorted(SortByType(cs[1..]), cs[0])
  }

  /** The sort orders any list by type, and strictly when no type repeats. */
  lemma {:induction false} SortByTypeOrders(cs: seq<Condition>)
    ensures OrderedByType(SortByType(cs))
    ensures UniqueTypes(cs) ==> Sorted(SortByType(cs))
  {
    if |cs| > 0 {
      var rest := SortByType(cs[1..]);
      SortByTypeOrders(cs[1..]);
      InsertKeepsOrdered(rest, cs[0]);
      if UniqueTypes(cs) {
        UniqueTail(cs);
        InsertSortedKeepsOrder(rest, cs[0]);
      }
    }
  }

  /** `c` is stored, and no other condition of its type is. */
  predicate StoredAlone(cs: seq<Condition>, c: Condition)
  {
    c in cs && forall x :: x in cs && x.condType == c.condType ==> x == c
  }

  /**
   * The manager's write of one condition. When `c` is already the stored
   * condition of its type the list is left as it is; otherwise every
   * condition of its type is dropped, `c` is added and the whole list is
   * sorted by type.
   */
  function SetCondition(cs: seq<Condition>, c: Condition): (r: seq<Condition>)
    ensures Lookup(r, c.condType) == Some(c)
    ensures forall u :: u != c.condType ==> Lookup(r, u) == Lookup(cs, u)
    ensures forall x :: x in r <==> x == c || (x in cs && x.condType != c.condType)
    ensures StoredAlone(cs, c) ==> r == cs
    ensures !StoredAlone(cs, c) ==> multiset(r) == multiset(RemoveType(cs, c.condType)) + multiset{c}
    ensures Sorted(cs) ==> Sorted(r)
  {
    if StoredAlone(cs, c) then cs
    else
      var rest := SortByType(RemoveType(cs, c.condType));
      SetConditionSortsFrom(cs, c);
      InsertSorted(rest, c)
  }

  /** A write that changes the list leaves it ordered by type, strictly when no type repeats. */
  lemma SetConditionSortsFrom(cs: seq<Condition>, c: Condition)
    ensures !StoredAlone(cs, c) ==> OrderedByType(InsertSorted(SortByType(RemoveType(cs, c.condType)), c))
    ensures !StoredAlone(cs, c) && UniqueTypes(cs) ==> Sorted(InsertSorted(SortByType(RemoveType(cs, c.condType)), c))
    ensures !StoredAlone(cs, c) && Sorted(cs) ==> Sorted(InsertSorted(SortByType(RemoveType(cs, c.condType)), c))
  {
    var rest := SortByType(RemoveType(cs, c.condType));
    SortByTypeOrders(RemoveType(cs, c.condType));
    InsertKeepsOrdered(rest, c);
    RemoveTypeKeepsUnique(cs, c.condType);
    InsertSortedKeepsOrder(rest, c);
    if Sorted(cs) {
      SortedUniqueTypes(cs);
    }
  }

  /** So a write that changes the list leaves it sorted by type, whatever order it had. */
  lemma SetConditionSorts(cs: seq<Condition>, c: Condition)
    requires !StoredAlone(cs, c)
    ensures OrderedByType(SetCondition(cs, c))
    ensures UniqueTypes(cs) ==> Sorted(SetCondition(cs, c))
  {
    SetConditionSortsFrom(cs, c);
  }

  // ---------------------------------------------------------------------
  // Aggregation over the registered dependents
  // ---------------------------------------------------------------------

  /** The first dependent, in registration order, that the list gives status `s`. */
  function FirstWithStatus(deps: seq<ConditionType>, cs: seq<Condition>, s: ConditionStatus): (r: Option<ConditionType>)
    ensures r.Some? ==> r.value in deps && StatusOf(cs, r.value) == s
    ensures r.None? ==> forall d :: d in deps ==> StatusOf(cs, d) != s
  {
    if |deps| == 0 then None
    else if StatusOf(cs, deps[0]) == s then Some(deps[0])
    else FirstWithStatus(deps[1..], cs, s)
  }

  /** FirstWithStatus over a list extended by one dependent. */
  lemma {:induction false} FirstWithStatusSnoc(deps: seq<ConditionType>, d: ConditionType, cs: seq<Condition>, s: ConditionStatus)
    ensures FirstWithStatus(deps + [d], cs, s) ==
            match FirstWithStatus(deps, cs, s)
            case Some(e) => Some(e)
            case None => if StatusOf(cs, d) == s then Some(d) else None
    decreases |deps|
  {
    if |deps| == 0 {
      assert deps + [d] == [d];
    } else {
      assert (deps + [d])[1..] == deps[1..] + [d];
      FirstWithStatusSnoc(deps[1..], d, cs, s);
    }
  }

  /**
   * The top-level condition the dependents imply.  Its reason and message
   * (taken here from the first False, else the first Unknown dependent) are
   * not promised by anything the call sites show.
   */
  function Aggregate(cset: ConditionSet, cs: seq<Condition>): (r: Condition)
    ensures r.condType == cset.happy
    ensures r.status == True <==> forall d :: d in cset.dependents ==> StatusOf(cs, d) == True
    ensures r.status == False <==> exists d :: d in cset.dependents && StatusOf(cs, d) == False
  {
    match FirstWithStatus(cset.dependents, cs, False)
    case Some(d) => Condition(cset.happy, False, ReasonOf(cs, d), MessageOf(cs, d))
    case None =>
      match FirstWithStatus(cset.dependents, cs, Unknown)
      case Some(d) => Condition(cset.happy, Unknown, ReasonOf(cs, d), MessageOf(cs, d))
      case None => Blank(cset.happy, True)
  }

  /**
   * Reference verdict over a list of statuses, written independently of the
   * manager: False if any is False, True if all are True, Unknown otherwise.
   */
  function Verdict(ss: seq<ConditionStatus>): ConditionStatus
  {
    if False in ss then False
    else if Unknown in ss then Unknown
    else True
  }

  /** The statuses the list records for `ts`, in order (absent types read as Unknown). */
  function StatusesOf(cs: seq<Condition>, ts: seq<ConditionType>): (r: seq<ConditionStatus>)
    ensures |r| == |ts| && forall i :: 0 <= i < |ts| ==> r[i] == StatusOf(cs, ts[i])
  {
    if |ts| == 0 then [] else [StatusOf(cs, ts[0])] + StatusesOf(cs, ts[1..])
  }

  /** The manager's aggregate is the reference verdict over the dependents' statuses. */
  lemma AggregateIsVerdict(cset: ConditionSet, cs: seq<Condition>)
    ensures Aggregate(cset, cs).status == Verdict(StatusesOf(cs, cset.dependents))
  {
    var ss := StatusesOf(cs, cset.dependents);
    if exists d :: d in cset.dependents && StatusOf(cs, d) == False {
      var d :| d in cset.dependents && StatusOf(cs, d) == False;
      var i :| 0 <= i < |cset.dependents| && cset.dependents[i] == d;
      assert ss[i] == False;
    } else if forall d :: d in cset.dependents ==> StatusOf(cs, d) == True {
      assert Unknown !in ss;
    } else {
      var d :| d in cset.dependents && StatusOf(cs, d) != True;
      var i :| 0 <= i < |cset.dependents| && cset.dependents[i] == d;
      assert ss[i] == Unknown;
    }
  }

  /**
   * The condition of type `t` that mirrors a child resource's Ready
   * condition `cond`: an absent child Ready is Unknown with empty reason and
   * message, a True one is True, and a False or Unknown one is copied with
   * its reason and message.
   */
  function Mirrored(t: ConditionType, cond: Option<Condition>): (r: Condition)
    ensures r.condType == t
    ensures r.status == (if cond.Some? then cond.value.status else Unknown)
    ensures cond.None? ==> r.reason == "" && r.message == ""
    ensures cond.Some? && cond.value.status == True ==> r.reason == "" && r.message == ""
    ensures cond.Some? && cond.value.status != True ==>
      r.reason == cond.value.reason && r.message == cond.value.message
  {
    match cond
    case None => Condition(t, Unknown, "", "")
    case Some(c) =>
      match c.status
      case True => Blank(t, True)
      case False => Condition(t, False, c.reason, c.message)
      case Unknown => Condition(t, Unknown, c.reason, c.message)
  }

  /** The verdict depends on the dependents' statuses and nothing else. */
  lemma AggregateDependsOnDependents(cset: ConditionSet, a: seq<Condition>, b: seq<Condition>)
    requires forall d :: d in cset.dependents ==> StatusOf(a, d) == StatusOf(b, d)
    ensures Aggregate(cset, a).status == Aggregate(cset, b).status
  {
    assert (exists d :: d in cset.dependents && StatusOf(a, d) == False)
        == (exists d :: d in cset.dependents && StatusOf(b, d) == False);
    assert (forall d :: d in cset.dependents ==> StatusOf(a, d) == True)
        == (forall d :: d in cset.dependents ==> StatusOf(b, d) == True);
  }

  // ---------------------------------------------------------------------
  // MarkTrue / MarkFalse / MarkUnknown
  // ---------------------------------------------------------------------

  /** Whether `t` is one of the set's registered dependents (and so gates the verdict). */
  predicate IsDependent(cset: ConditionSet, t: ConditionType)
  {
    t != cset.happy && t in cset.dependents
  }

  /**
   * What one Mark call promises: the marked condition is stored, nothing
   * else but the top-level condition changes, marking a dependent leaves the
   * top-level condition present with the verdict of the dependents, marking
   * an unregistered type leaves the top-level condition alone, and the list
   * stays sorted by type.
   */
  ghost predicate MarkEffect(cset: ConditionSet, before: seq<Condition>, after: seq<Condition>, c: Condition)
  {
    && Lookup(after, c.condType) == Some(c)
    && (forall u :: u != c.condType && u != cset.happy ==> Lookup(after, u) == Lookup(before, u))
    && (IsDependent(cset, c.condType) ==>
          Lookup(after, cset.happy).Some? && StatusOf(after, cset.happy) == Aggregate(cset, after).status)
    && (c.condType != cset.happy && c.condType !in cset.dependents ==>
          Lookup(after, cset.happy) == Lookup(before, cset.happy))
    && (Sorted(before) ==> Sorted(after))
  }

  /**
   * The list after the manager stores `c`: a dependent's write is followed by
   * a recompute of the top-level condition; a write of the top-level type
   * or of an unregistered type is stored as it is.
   */
  function Marked(cset: ConditionSet, cs: seq<Condition>, c: Condition): (r: seq<Condition>)
    requires cset.WellFormed()
    ensures MarkEffect(cset, cs, r, c)
  {
    var written := SetCondition(cs, c);
    if IsDependent(cset, c.condType) then
      var r := SetCondition(written, Aggregate(cset, written));
      RecomputeEffect(cset, cs, c);
      r
    else written
  }

  /** A dependent's write followed by the recompute has the effect a mark promises. */
  lemma RecomputeEffect(cset: ConditionSet, cs: seq<Condition>, c: Condition)
    requires cset.WellFormed() && IsDependent(cset, c.condType)
    ensures MarkEffect(cset, cs, SetCondition(SetCondition(cs, c), Aggregate(cset, SetCondition(cs, c))), c)
  {
    var written := SetCondition(cs, c);
    var top := Aggregate(cset, written);
    var r := SetCondition(written, top);
    KeepsOtherStatuses(cset, written, top);
    AggregateDependsOnDependents(cset, written, r);
  }

  /** Writing the top-level condition leaves every dependent's status alone. */
  lemma KeepsOtherStatuses(cset: ConditionSet, cs: seq<Condition>, top: Condition)
    requires cset.WellFormed() && top.condType == cset.happy
    ensures forall d :: d in cset.dependents ==> StatusOf(SetCondition(cs, top), d) == StatusOf(cs, d)
  {
  }

  /**
   * A mark that changes a list without repeated types leaves it sorted by
   * type, whatever order it was built in.
   */
  lemma MarkedSorts(cset: ConditionSet, cs: seq<Condition>, c: Condition)
    requires cset.WellFormed()
    requires UniqueTypes(cs) && !StoredAlone(cs, c)
    ensures Sorted(Marked(cset, cs, c))
  {
    SetConditionSorts(cs, c);
  }

  function MarkTrue(cset: ConditionSet, cs: seq<Condition>, t: ConditionType): seq<Condition>
    requires cset.WellFormed()
  {
    Marked(cset, cs, Blank(t, True))
  }

  /** Marking a dependent False makes the top-level condition False. */
  lemma MarkFalseMakesUnready(cset: ConditionSet, cs: seq<Condition>, t: ConditionType, reason: string, message: string)
    requires cset.WellFormed() && t in cset.dependents
    ensures StatusOf(Marked(cset, cs, Condition(t, False, reason, message)), cset.happy) == False
  {
    var r := Marked(cset, cs, Condition(t, False, reason, message));
    assert StatusOf(r, t) == False;
  }

  /** Marking a dependent Unknown while every other dependent is True makes the top-level Unknown. */
  lemma MarkUnknownAmongTrue(cset: ConditionSet, cs: seq<Condition>, t: ConditionType, reason: string, message: string)
    requires cset.WellFormed() && t in cset.dependents
    requires forall d :: d in cset.dependents && d != t ==> StatusOf(cs, d) == True
    ensures StatusOf(Marked(cset, cs, Condition(t, Unknown, reason, message)), cset.happy) == Unknown
  {
    var r := Marked(cset, cs, Condition(t, Unknown, reason, message));
    assert StatusOf(r, t) == Unknown;
    forall d | d in cset.dependents && d != t ensures StatusOf(r, d) == True {
      assert Lookup(r, d) == Lookup(cs, d);
    }
  }

  /** Marking the last non-True dependent True makes the top-level True. */
  lemma MarkTrueAmongTrue(cset: ConditionSet, cs: seq<Condition>, t: ConditionType)
    requires cset.WellFormed() && t in cset.dependents
    requires forall d :: d in cset.dependents && d != t ==> StatusOf(cs, d) == True
    ensures StatusOf(MarkTrue(cset, cs, t), cset.happy) == True
  {
    var r := MarkTrue(cset, cs, t);
    forall d | d in cset.dependents ensures StatusOf(r, d) == True {
      if d != t {
        assert Lookup(r, d) == Lookup(cs, d);
      }
    }
  }

  /** Marking one type leaves the status of every other type but the top-level one as it was. */
  lemma MarkKeepsStatus(cset: ConditionSet, cs: seq<Condition>, c: Condition, d: ConditionType)
    requires cset.WellFormed() && d != c.condType && d != cset.happy
    ensures StatusOf(Marked(cset, cs, c), d) == StatusOf(cs, d)
  {
    assert Lookup(Marked(cset, cs, c), d) == Lookup(cs, d);
  }

  /** With a single dependent, the top-level condition takes that dependent's status as it is marked. */
  lemma MarkSoleDependent(cset: ConditionSet, cs: seq<Condition>, c: Condition)
    requires cset.WellFormed() && cset.dependents == [c.condType]
    ensures StatusOf(Marked(cset, cs, c), cset.happy) == c.status
  {
    var r := Marked(cset, cs, c);
    assert StatusOf(r, c.condType) == c.status;
    assert c.condType in cset.dependents;
  }

  /** A condition marked True stays True while other types are marked True. */
  lemma MarkTrueKeepsTrue(cset: ConditionSet, cs: seq<Condition>, t: ConditionType, d: ConditionType)
    requires cset.WellFormed() && d != cset.happy && (d == t || StatusOf(cs, d) == True)
    ensures StatusOf(MarkTrue(cset, cs, t), d) == True
  {
    if d != t {
      assert Lookup(MarkTrue(cset, cs, t), d) == Lookup(cs, d);
    }
  }

  /** Marks each type of `ts` True, in order. */
  function MarkAllTrue(cset: ConditionSet, cs: seq<Condition>, ts: seq<ConditionType>): seq<Condition>
    requires cset.WellFormed()
    decreases |ts|
  {
    if |ts| == 0 then cs
    else MarkTrue(cset, MarkAllTrue(cset, cs, ts[..|ts| - 1]), ts[|ts| - 1])
  }

  /** Every dependent marked True by a run of MarkTrue calls stays True. */
  lemma {:induction false} MarkAllTrueStatuses(cset: ConditionSet, cs: seq<Condition>, ts: seq<ConditionType>)
    requires cset.WellFormed()
    requires forall t :: t in ts ==> t in cset.dependents
    ensures forall t :: t in ts ==> StatusOf(MarkAllTrue(cset, cs, ts), t) == True
    decreases |ts|
  {
    if |ts| > 0 {
      var init := ts[..|ts| - 1];
      var last := ts[|ts| - 1];
      assert ts == init + [last];
      MarkAllTrueStatuses(cset, cs, init);
      var prev := MarkAllTrue(cset, cs, init);
      var r := MarkTrue(cset, prev, last);
      forall t | t in ts ensures StatusOf(r, t) == True {
        if t != last {
          assert t in init;
          assert Lookup(r, t) == Lookup(prev, t);
        }
      }
    }
  }

  /**
   * Marking every dependent True, in any order and with repetitions, makes
   * the top-level condition True, whatever the list held before.
   */
  lemma MarkingAllDependentsTrueIsReady(cset: ConditionSet, cs: seq<Condition>, ts: seq<ConditionType>)
    requires cset.WellFormed() && |ts| > 0
    requires forall t :: t in ts ==> t in cset.dependents
    requires forall d :: d in cset.dependents ==> d in ts
    ensures StatusOf(MarkAllTrue(cset, cs, ts), cset.happy) == True
  {
    var init := ts[..|ts| - 1];
    var last := ts[|ts| - 1];
    assert ts == init + [last];
    MarkAllTrueStatuses(cset, cs, ts);
    MarkAllTrueStatuses(cset, cs, init);
    var prev := MarkAllTrue(cset, cs, init);
    forall d | d in cset.dependents && d != last ensures StatusOf(prev, d) == True {
      assert d in init;
    }
    MarkTrueAmongTrue(cset, prev, last);
  }

  // ---------------------------------------------------------------------
  // InitializeConditions
  // ---------------------------------------------------------------------

  /** Adds `t` as Unknown when the list holds no condition of that type. */
  function InitializeOne(cs: seq<Condition>, t: ConditionType): seq<Condition>
  {
    if Lookup(cs, t).Some? then cs else SetCondition(cs, Blank(t, Unknown))
  }

  /** InitializeOne for each of `types`, in order. */
  function InitializeAll(types: seq<ConditionType>, cs: seq<Condition>): seq<Condition>
    decreases |types|
  {
    if |types| == 0 then cs else InitializeAll(types[1..], InitializeOne(cs, types[0]))
  }

  /** Initialisation fills in exactly the missing registered types, as Unknown, and alters nothing stored. */
  lemma {:induction false} InitializeLookup(types: seq<ConditionType>, cs: seq<Condition>, u: ConditionType)
    ensures Lookup(InitializeAll(types, cs), u) ==
            if u in types && Lookup(cs, u) == None then Some(Blank(u, Unknown)) else Lookup(cs, u)
    decreases |types|
  {
    if |types| > 0 {
      assert types == [types[0]] + types[1..];
      InitializeLookup(types[1..], InitializeOne(cs, types[0]), u);
    }
  }

  /** The members after initialisation: the old ones and an Unknown condition for each missing type. */
  lemma {:induction false} InitializeMembers(types: seq<ConditionType>, cs: seq<Condition>, x: Condition)
    ensures x in InitializeAll(types, cs) <==>
            x in cs || (x == Blank(x.condType, Unknown) && x.condType in types && Lookup(cs, x.condType) == None)
    decreases |types|
  {
    if |types| > 0 {
      var t := types[0];
      var next := InitializeOne(cs, t);
      assert types == [t] + types[1..];
      InitializeMembers(types[1..], next, x);
      if Lookup(cs, t) == None {
        assert forall y :: y in cs ==> y.condType != t;
      }
    }
  }

  lemma {:induction false} InitializeKeepsOrder(types: seq<ConditionType>, cs: seq<Condition>)
    requires Sorted(cs)
    ensures Sorted(InitializeAll(types, cs))
    decreases |types|
  {
    if |types| > 0 {
      InitializeKeepsOrder(types[1..], InitializeOne(cs, types[0]));
    }
  }

  /** The one sorted list holding the old conditions and an Unknown one for each missing type. */
  lemma InitializeResult(types: seq<ConditionType>, cs: seq<Condition>, expected: seq<Condition>)
    requires Sorted(cs) && Sorted(expected)
    requires forall x :: x in expected <==>
      x in cs || (x == Blank(x.condType, Unknown) && x.condType in types && Lookup(cs, x.condType) == None)
    ensures InitializeAll(types, cs) == expected
  {
    InitializeKeepsOrder(types, cs);
    forall x ensures x in InitializeAll(types, cs) <==> x in expected {
      InitializeMembers(types, cs, x);
    }
    SortedExtensional(InitializeAll(types, cs), expected);
  }

  /** From an empty list, initialisation gives the sorted list of one Unknown condition per type. */
  lemma InitializeFromEmptyIs(types: seq<ConditionType>, expected: seq<Condition>)
    requires Sorted(expected)
    requires forall x :: x in expected <==> x == Blank(x.condType, Unknown) && x.condType in types
    ensures InitializeAll(types, []) == expected
  {
    InitializeResult(types, [], expected);
  }

  /**
   * From a list holding one condition, initialisation gives the sorted list
   * of that condition and one Unknown condition per other type.
   */
  lemma InitializeFromOneIs(types: seq<ConditionType>, stored: Condition, expected: seq<Condition>)
    requires Sorted(expected)
    requires forall x :: x in expected <==>
      x == stored || (x == Blank(x.condType, Unknown) && x.condType in types && x.condType != stored.condType)
    ensures InitializeAll(types, [stored]) == expected
  {
    InitializeResult(types, [stored], expected);
  }

  /** A list that already holds every type is left as it is. */
  lemma {:induction false} InitializeComplete(types: seq<ConditionType>, cs: seq<Condition>)
    requires forall t :: t in types ==> Lookup(cs, t).Some?
    ensures InitializeAll(types, cs) == cs
    decreases |types|
  {
    if |types| > 0 {
      InitializeComplete(types[1..], cs);
    }
  }

  /** Initialising twice gives the same list as initialising once. */
  lemma InitializeIdempotent(types: seq<ConditionType>, cs: seq<Condition>)
    ensures InitializeAll(types, InitializeAll(types, cs)) == InitializeAll(types, cs)
  {
    var r := InitializeAll(types, cs);
    forall t | t in types ensures Lookup(r, t).Some? {
      InitializeLookup(types, cs, t);
    }
    InitializeComplete(types, r);
  }

  /**
   * Initialising an empty status yields one Unknown condition per registered
   * type and nothing else, sorted by type.
   */
  lemma InitializeFromEmpty(cset: ConditionSet)
    ensures var r := InitializeAll(cset.Types(), []);
      && Sorted(r)
      && (forall t :: t in cset.Types() ==> Lookup(r, t) == Some(Blank(t, Unknown)))
      && (forall x :: x in r ==> x.status == Unknown && x.condType in cset.Types())
      && |r| == |set t | t in cset.Types()|
  {
    var types := cset.Types();
    var r := InitializeAll(types, []);
    InitializeKeepsOrder(types, []);
    forall t | t in types ensures Lookup(r, t) == Some(Blank(t, Unknown)) {
      InitializeLookup(types, [], t);
    }
    forall x | x in r ensures x.status == Unknown && x.condType in types {
      InitializeMembers(types, [], x);
    }
    assert TypeSet(r) == set t | t in types by {
      forall t | t in types ensures t in TypeSet(r) {
        assert Lookup(r, t).value in r;
      }
    }
    SortedTypeCount(r);
  }
}
