/** The courier directory (DeliveryBoysManager.tsx): the name-sorted list,
    adding a courier under a name not yet taken (ignoring case), and
    removing one by id. */
module DeliveryBoysManager {
  import opened Domain
  import opened Seqs

  /** `toLowerCase` on the ASCII letters. */
  function LowerChar(c: char): char {
    if 'A' <= c <= 'Z' then (c as int + 32) as char else c
  }

  function Lower(s: string): (r: string)
    ensures |r| == |s|
  {
    seq(|s|, i requires 0 <= i < |s| => LowerChar(s[i]))
  }

  /** Lower-casing twice changes nothing more. */
  lemma LowerIdempotent(s: string)
    ensures Lower(Lower(s)) == Lower(s)
  {
    forall i | 0 <= i < |s| ensures Lower(Lower(s))[i] == Lower(s)[i] {
      assert Lower(s)[i] == LowerChar(s[i]);
    }
  }

  /** The directory's invariant: no two couriers share a name up to case. */
  predicate DistinctIgnoringCase(boys: seq<DeliveryBoy>) {
    forall i, j :: 0 <= i < j < |boys| ==> Lower(boys[i].name) != Lower(boys[j].name)
  }

  /** Lexicographic order on names by code point: a prefix comes first. */
  predicate NameLe(a: string, b: string)
    decreases |a|
  {
    |a| == 0 || (|b| > 0 && (a[0] < b[0] || (a[0] == b[0] && NameLe(a[1..], b[1..]))))
  }

  lemma {:induction false} NameLeTotal(a: string, b: string)
    ensures NameLe(a, b) || NameLe(b, a)
    decreases |a|
  {
    if |a| > 0 && |b| > 0 && a[0] == b[0] {
      NameLeTotal(a[1..], b[1..]);
    }
  }

  lemma {:induction false} NameLeTransitive(a: string, b: string, c: string)
    requires NameLe(a, b) && NameLe(b, c)
    ensures NameLe(a, c)
    decreases |a|
  {
    if |a| > 0 && a[0] == b[0] && b[0] == c[0] {
      NameLeTransitive(a[1..], b[1..], c[1..]);
    }
  }

  /** Two names ordered both ways are the same name. */
  lemma {:induction false} NameLeAntisymmetric(a: string, b: string)
    requires NameLe(a, b) && NameLe(b, a)
    ensures a == b
    decreases |a|
  {
    if |a| > 0 {
      NameLeAntisymmetric(a[1..], b[1..]);
      assert a == [a[0]] + a[1..];
      assert b == [b[0]] + b[1..];
    }
  }

  function ByName(a: DeliveryBoy, b: DeliveryBoy): bool { NameLe(a.name, b.name) }

  lemma ByNameTotal()
    ensures Total(ByName)
    ensures forall a, b, c :: ByName(a, b) && ByName(b, c) ==> ByName(a, c)
  {
    forall a: DeliveryBoy, b: DeliveryBoy ensures ByName(a, b) || ByName(b, a) {
      NameLeTotal(a.name, b.name);
    }
    forall a: DeliveryBoy, b: DeliveryBoy, c: DeliveryBoy | ByName(a, b) && ByName(b, c)
      ensures ByName(a, c)
    {
      NameLeTransitive(a.name, b.name, c.name);
    }
  }

  /** `sortedBoys`: the directory ordered by name. */
  function SortedBoys(boys: seq<DeliveryBoy>): (r: seq<DeliveryBoy>)
    ensures multiset(r) == multiset(boys)
    ensures forall i, j :: 0 <= i < j < |r| ==> NameLe(r[i].name, r[j].name)
  {
    ByNameTotal();
    var r := SortBy(boys, ByName);
    forall i, j | 0 <= i < j < |r| ensures NameLe(r[i].name, r[j].name) {
      SortedPairwise(r, ByName, i, j);
    }
    r
  }

  /** Sorting the sorted directory again changes nothing. */
  lemma SortedBoysIdempotent(boys: seq<DeliveryBoy>)
    ensures SortedBoys(SortedBoys(boys)) == SortedBoys(boys)
  {
    ByNameTotal();
    var r := SortedBoys(boys);
    assert Sorted(r, ByName);
    SortSorted(r, ByName);
  }

  datatype AddError = NameTooShort | NameTaken

  /** `onSubmit` behind the form's schema: a name shorter than two
      characters never reaches it; a name already in the sorted list up to
      case is refused; any other name is stored as a new courier. */
  function AddBoy(boys: seq<DeliveryBoy>, name: string, id: string, createdAt: Time): (r: Result<seq<DeliveryBoy>, AddError>)
    ensures r == Failure(NameTooShort) <==> |name| < 2
    ensures r == Failure(NameTaken) <==>
      |name| >= 2 && exists i :: 0 <= i < |boys| && Lower(boys[i].name) == Lower(name)
    ensures r.Success? ==> r.value == boys + [DeliveryBoy(id, name, createdAt)]
    ensures r.Success? && DistinctIgnoringCase(boys) ==> DistinctIgnoringCase(r.value)
  {
    var shown := SortedBoys(boys);
    if |name| < 2 then Failure(NameTooShort)
    else if exists b :: b in shown && Lower(b.name) == Lower(name) then
      assert exists i :: 0 <= i < |boys| && Lower(boys[i].name) == Lower(name) by {
        var b :| b in shown && Lower(b.name) == Lower(name);
        assert b in multiset(boys);
      }
      Failure(NameTaken)
    else
      assert forall i :: 0 <= i < |boys| ==> Lower(boys[i].name) != Lower(name) by {
        forall i | 0 <= i < |boys| ensures Lower(boys[i].name) != Lower(name) {
          assert boys[i] in multiset(shown);
        }
      }
      Success(boys + [DeliveryBoy(id, name, createdAt)])
  }

  /** The duplicate check compares lower-cased names, so lower-casing the
      typed name first changes neither the verdict nor the error. */
  lemma AddBoyIgnoresCase(boys: seq<DeliveryBoy>, name: string, id: string, createdAt: Time)
    ensures AddBoy(boys, Lower(name), id, createdAt).Success? <==> AddBoy(boys, name, id, createdAt).Success?
    ensures AddBoy(boys, Lower(name), id, createdAt).Failure? ==>
      AddBoy(boys, Lower(name), id, createdAt).error == AddBoy(boys, name, id, createdAt).error
  {
    LowerIdempotent(name);
  }

  function WithoutBoyId(id: string): DeliveryBoy -> bool { (b: DeliveryBoy) => b.id != id }

  /** `deleteBoy(id)`: the courier with that id leaves the directory and
      the others stay, in order. */
  function DeleteBoy(boys: seq<DeliveryBoy>, id: string): (r: seq<DeliveryBoy>)
    ensures forall b :: b in r <==> b in boys && b.id != id
    ensures Subseq(r, boys)
    ensures forall b :: multiset(r)[b] == if b.id != id then multiset(boys)[b] else 0
  {
    assert forall b :: WithoutBoyId(id)(b) == (b.id != id);
    FilterCounts(boys, WithoutBoyId(id));
    Filter(boys, WithoutBoyId(id))
  }

  /** Ids are document keys, so each names one courier. */
  predicate UniqueIds(boys: seq<DeliveryBoy>) {
    forall i, j :: 0 <= i < j < |boys| ==> boys[i].id != boys[j].id
  }

  /** Once a courier is removed, their name (in any case) can be added
      again. */
  lemma NameFreeAfterDelete(boys: seq<DeliveryBoy>, k: int, name: string, id: string, createdAt: Time)
    requires DistinctIgnoringCase(boys) && UniqueIds(boys)
    requires 0 <= k < |boys|
    requires |name| >= 2 && Lower(name) == Lower(boys[k].name)
    ensures AddBoy(DeleteBoy(boys, boys[k].id), name, id, createdAt).Success?
  {
    var rest := DeleteBoy(boys, boys[k].id);
    forall i | 0 <= i < |rest| ensures Lower(rest[i].name) != Lower(name) {
      assert rest[i] in rest;
      var j :| 0 <= j < |boys| && boys[j] == rest[i];
      assert j != k;
      if j < k {
        assert Lower(boys[j].name) != Lower(boys[k].name);
      } else {
        assert Lower(boys[k].name) != Lower(boys[j].name);
      }
    }
  }
}
