/**
 SQL's ORDER BY ... LIMIT 1 over a finite set of rows: a rank of up to three integer columns and an
 identifier, compared lexicographically.
 */
module Ordering {

  /** BINARY collation of TEXT. */
  predicate TextLe(a: string, b: string)
    decreases |a|
  {
    if a == "" then true
    else if b == "" then false
    else if a[0] != b[0] then a[0] < b[0]
    else TextLe(a[1..], b[1..])
  }

  lemma {:induction false} TextLeTotal(a: string, b: string)
    ensures TextLe(a, b) || TextLe(b, a)
    ensures TextLe(a, b) && TextLe(b, a) ==> a == b
    decreases |a|
  {
    if a != "" && b != "" && a[0] == b[0] {
      TextLeTotal(a[1..], b[1..]);
      assert a == [a[0]] + a[1..] && b == [b[0]] + b[1..];
    }
  }

  lemma {:induction false} TextLeTransitive(a: string, b: string, c: string)
    requires TextLe(a, b) && TextLe(b, c)
    ensures TextLe(a, c)
    decreases |a|
  {
    if a != "" && c != "" && a[0] == b[0] == c[0] {
      TextLeTransitive(a[1..], b[1..], c[1..]);
    }
  }

  /** a comes no later than b: it is a prefix of b, or has the smaller character where they first differ. */
  lemma {:induction false} TextLeIsLexicographic(a: string, b: string)
    ensures TextLe(a, b) <==> a <= b || exists i :: SmallerAt(a, b, i)
    decreases |a|
  {
    if a != "" && b != "" {
      if a[0] == b[0] {
        TextLeIsLexicographic(a[1..], b[1..]);
        assert a <= b <==> a[1..] <= b[1..];
        if i :| SmallerAt(a, b, i) {
          assert a[1..][..i - 1] == a[..i][1..] && b[1..][..i - 1] == b[..i][1..];
          assert SmallerAt(a[1..], b[1..], i - 1);
        }
        if i :| SmallerAt(a[1..], b[1..], i) {
          assert a[..i + 1] == [a[0]] + a[1..][..i] && b[..i + 1] == [b[0]] + b[1..][..i];
          assert SmallerAt(a, b, i + 1);
        }
      } else {
        assert a[0] < b[0] ==> SmallerAt(a, b, 0);
        if i :| SmallerAt(a, b, i) {
          assert i > 0 ==> a[..i][0] == b[..i][0];
        }
      }
    }
  }

  ghost predicate SmallerAt(a: string, b: string, i: int) {
    0 <= i < |a| && i < |b| && a[..i] == b[..i] && a[i] < b[i]
  }

  datatype Rank = Rank(first: int, second: int, third: int, id: string)

  /** ORDER BY one text column; sort.Strings and ReadDir order names the same way. */
  function NameRank(name: string): Rank {
    Rank(0, 0, 0, name)
  }

  predicate RankLe(a: Rank, b: Rank) {
    if a.first != b.first then a.first < b.first
    else if a.second != b.second then a.second < b.second
    else if a.third != b.third then a.third < b.third
    else TextLe(a.id, b.id)
  }

  lemma RankLeTotal(a: Rank, b: Rank)
    ensures RankLe(a, b) || RankLe(b, a)
    ensures RankLe(a, b) && RankLe(b, a) ==> a == b
  {
    TextLeTotal(a.id, b.id);
  }

  lemma RankLeTransitive(a: Rank, b: Rank, c: Rank)
    requires RankLe(a, b) && RankLe(b, c)
    ensures RankLe(a, c)
  {
    if a.first == b.first == c.first && a.second == b.second == c.second && a.third == b.third == c.third {
      TextLeTransitive(a.id, b.id, c.id);
    }
  }

  ghost predicate IsFirst<K>(keys: set<K>, rank: K -> Rank, k: K) {
    k in keys && forall j :: j in keys ==> RankLe(rank(k), rank(j))
  }

  /** SELECT ... ORDER BY rank LIMIT 1, for a nonempty selection. */
  method SelectFirst<K(==)>(keys: set<K>, rank: K -> Rank) returns (first: K)
    requires keys != {}
    ensures IsFirst(keys, rank, first)
  {
    first :| first in keys;
    var rest := keys - {first};
    RankLeTotal(rank(first), rank(first));
    while rest != {}
      invariant rest <= keys
      invariant IsFirst(keys - rest, rank, first)
      decreases |rest|
    {
      var next :| next in rest;
      RankLeTotal(rank(first), rank(next));
      RankLeTotal(rank(next), rank(next));
      if !RankLe(rank(first), rank(next)) {
        forall j | j in keys - rest ensures RankLe(rank(next), rank(j)) {
          RankLeTransitive(rank(next), rank(first), rank(j));
        }
        first := next;
      }
      rest := rest - {next};
    }
    assert keys - rest == keys;
  }

  lemma {:induction false} FirstExists<K>(keys: set<K>, rank: K -> Rank)
    requires keys != {}
    ensures exists k :: IsFirst(keys, rank, k)
    decreases |keys|
  {
    var x :| x in keys;
    RankLeTotal(rank(x), rank(x));
    if keys == {x} {
      assert IsFirst(keys, rank, x);
    } else {
      FirstExists(keys - {x}, rank);
      var y :| IsFirst(keys - {x}, rank, y);
      RankLeTotal(rank(x), rank(y));
      if RankLe(rank(x), rank(y)) {
        forall j | j in keys ensures RankLe(rank(x), rank(j)) {
          if j != x {
            RankLeTransitive(rank(x), rank(y), rank(j));
          }
        }
        assert IsFirst(keys, rank, x);
      } else {
        assert IsFirst(keys, rank, y);
      }
    }
  }

  // ---------- Listing all rows in order ----------

  /** Ranks that tell rows apart. */
  ghost predicate Separates<K>(keys: set<K>, rank: K -> Rank) {
    forall a, b :: a in keys && b in keys && rank(a) == rank(b) ==> a == b
  }

  /** SELECT ... ORDER BY rank, without a limit. */
  ghost function Listing<K>(keys: set<K>, rank: K -> Rank): (rows: seq<K>)
    decreases |keys|
  {
    if keys == {} then []
    else
      FirstExists(keys, rank);
      var k :| IsFirst(keys, rank, k);
      [k] + Listing(keys - {k}, rank)
  }

  lemma FirstUnique<K>(keys: set<K>, rank: K -> Rank, a: K, b: K)
    requires Separates(keys, rank) && IsFirst(keys, rank, a) && IsFirst(keys, rank, b)
    ensures a == b
  {
    RankLeTotal(rank(a), rank(b));
  }

  lemma ListingStep<K>(keys: set<K>, rank: K -> Rank)
    requires keys != {}
    ensures Listing(keys, rank) != []
    ensures
      var k := Listing(keys, rank)[0];
      IsFirst(keys, rank, k) && Listing(keys, rank) == [k] + Listing(keys - {k}, rank)
  {
    FirstExists(keys, rank);
  }

  ghost predicate Ordered<K>(rows: seq<K>, rank: K -> Rank) {
    forall i, j :: 0 <= i < j < |rows| ==> rows[i] != rows[j] && RankLe(rank(rows[i]), rank(rows[j]))
  }

  /** The listing holds each row once, in order. */
  lemma {:induction false} ListingHolds<K>(keys: set<K>, rank: K -> Rank)
    ensures forall k :: k in Listing(keys, rank) <==> k in keys
    ensures Ordered(Listing(keys, rank), rank)
    decreases |keys|
  {
    if keys != {} {
      ListingStep(keys, rank);
      var k := Listing(keys, rank)[0];
      var rest := Listing(keys - {k}, rank);
      ListingHolds(keys - {k}, rank);
      OrderedCons(k, rest, keys, rank);
    }
  }

  lemma OrderedCons<K>(k: K, rest: seq<K>, keys: set<K>, rank: K -> Rank)
    requires IsFirst(keys, rank, k) && Ordered(rest, rank)
    requires forall x :: x in rest <==> x in keys - {k}
    ensures Ordered([k] + rest, rank)
    ensures forall x :: x in [k] + rest <==> x in keys
  {
    forall j | 0 <= j < |rest| ensures rest[j] != k && RankLe(rank(k), rank(rest[j])) {
      assert rest[j] in rest;
    }
  }

  /** The listing depends on the ranks of the selected rows alone. */
  lemma {:induction false} SameListing<K>(keys: set<K>, a: K -> Rank, b: K -> Rank)
    requires Separates(keys, a)
    requires forall k :: k in keys ==> a(k) == b(k)
    ensures Listing(keys, a) == Listing(keys, b)
    decreases |keys|
  {
    if keys != {} {
      ListingStep(keys, a);
      ListingStep(keys, b);
      var x, y := Listing(keys, a)[0], Listing(keys, b)[0];
      assert IsFirst(keys, a, y);
      FirstUnique(keys, a, x, y);
      SameListing(keys - {x}, a, b);
    }
  }

  method SelectAll<K(==)>(keys: set<K>, rank: K -> Rank) returns (rows: seq<K>)
    requires Separates(keys, rank)
    ensures rows == Listing(keys, rank)
  {
    rows := [];
    var rest := keys;
    while rest != {}
      invariant rest <= keys
      invariant rows + Listing(rest, rank) == Listing(keys, rank)
      decreases |rest|
    {
      var first := SelectFirst(rest, rank);
      ListingStep(rest, rank);
      FirstUnique(rest, rank, first, Listing(rest, rank)[0]);
      assert rows + Listing(rest, rank) == (rows + [first]) + Listing(rest - {first}, rank);
      rows := rows + [first];
      rest := rest - {first};
    }
  }
}
