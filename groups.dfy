/**
 * The grouping index of a declaration, stated over the kinds of its text
 * lines alone: every employee line opens a group keyed by its line index,
 * and every contribution line belongs to the group of the last employee
 * line before it.
 */
module Groups {
  import opened Values

  /** What a text line is to the grouping. */
  datatype Kind = Employee | Contribution | Other

  /** The employee line that owns line j: the last employee line before it. */
  function Owner(ks: seq<Kind>, j: nat): (r: Option<nat>)
    requires j <= |ks|
    ensures r.Some? ==> r.value < j && ks[r.value] == Employee
    ensures r.Some? ==> forall m :: r.value < m < j ==> ks[m] != Employee
    ensures r.None? ==> forall m :: 0 <= m < j ==> ks[m] != Employee
  {
    if j == 0 then None
    else if ks[j - 1] == Employee then Some(j - 1)
    else Owner(ks, j - 1)
  }

  /** The number of employee lines before line j. */
  function Count(ks: seq<Kind>, j: nat): nat
    requires j <= |ks|
  {
    if j == 0 then 0 else Count(ks, j - 1) + (if ks[j - 1] == Employee then 1 else 0)
  }

  /** The contribution lines before line j that employee line e owns, in order. */
  function Members(ks: seq<Kind>, e: nat, j: nat): seq<nat>
    requires j <= |ks|
  {
    if j == 0 then []
    else Members(ks, e, j - 1) + (if ks[j - 1] == Contribution && Owner(ks, j - 1) == Some(e) then [j - 1] else [])
  }

  /** The index and the counter after the lines before i, starting from none. */
  ghost predicate GroupsBefore(ks: seq<Kind>, i: nat, ergnoi: map<nat, seq<nat>>, total: nat)
    requires i <= |ks|
  {
    (forall e: nat :: e in ergnoi <==> e < i && ks[e] == Employee)
    && total == Count(ks, i)
    && (forall e :: e in ergnoi ==> ergnoi[e] == Members(ks, e, i))
    && (forall j {:trigger Owner(ks, j)} :: 0 <= j < i && ks[j] == Contribution ==> Owner(ks, j).Some?)
  }

  /** The open group is the last employee line before i, when there is one. */
  predicate OpenGroup(ks: seq<Kind>, i: nat, cur: nat)
    requires i <= |ks|
  {
    Owner(ks, i).Some? ==> cur == Owner(ks, i).value
  }

  /** An employee line owns no line before it. */
  lemma {:induction false} MembersNone(ks: seq<Kind>, e: nat, j: nat)
    requires j <= |ks| && j <= e
    ensures Members(ks, e, j) == []
  {
    if j > 0 {
      MembersNone(ks, e, j - 1);
    }
  }

  /** Line i joins the members of e exactly when it is a contribution line that e owns. */
  lemma {:induction false} MembersStep(ks: seq<Kind>, e: nat, i: nat)
    requires i < |ks|
    ensures Members(ks, e, i + 1) == Members(ks, e, i) + (if ks[i] == Contribution && Owner(ks, i) == Some(e) then [i] else [])
  {
  }

  /** An employee line opens its own, empty group. */
  lemma {:induction false} GroupsOpen(ks: seq<Kind>, i: nat, ergnoi: map<nat, seq<nat>>, total: nat)
    requires i < |ks| && GroupsBefore(ks, i, ergnoi, total) && ks[i] == Employee
    ensures GroupsBefore(ks, i + 1, ergnoi[i := []], total + 1) && Owner(ks, i + 1) == Some(i)
  {
    var ergnoi' := ergnoi[i := []];
    MembersNone(ks, i, i);
    forall e | e in ergnoi' ensures ergnoi'[e] == Members(ks, e, i + 1) {
      MembersStep(ks, e, i);
      if e != i {
        assert ergnoi'[e] == Members(ks, e, i);
      }
    }
  }

  /** A contribution line joins the open group, the group of the last employee line. */
  lemma {:induction false} GroupsJoin(ks: seq<Kind>, i: nat, cur: nat, ergnoi: map<nat, seq<nat>>, total: nat)
    requires i < |ks| && GroupsBefore(ks, i, ergnoi, total) && OpenGroup(ks, i, cur)
    requires ks[i] == Contribution && cur in ergnoi
    ensures GroupsBefore(ks, i + 1, ergnoi[cur := ergnoi[cur] + [i]], total) && Owner(ks, i + 1) == Some(cur)
  {
    var ergnoi' := ergnoi[cur := ergnoi[cur] + [i]];
    assert Owner(ks, i) == Some(cur);
    forall e | e in ergnoi' ensures ergnoi'[e] == Members(ks, e, i + 1) {
      MembersStep(ks, e, i);
      if e != cur {
        assert ergnoi'[e] == Members(ks, e, i);
      }
    }
  }

  /** Any other line leaves the groups alone. */
  lemma {:induction false} GroupsKeep(ks: seq<Kind>, i: nat, ergnoi: map<nat, seq<nat>>, total: nat)
    requires i < |ks| && GroupsBefore(ks, i, ergnoi, total) && ks[i] == Other
    ensures GroupsBefore(ks, i + 1, ergnoi, total) && Owner(ks, i + 1) == Owner(ks, i)
  {
    forall e | e in ergnoi ensures ergnoi[e] == Members(ks, e, i + 1) {
      MembersStep(ks, e, i);
    }
  }
}
