/** Inhibitor ledgers: maps from a 32-bit cookie to the name of the application
    holding the inhibition. Listing walks the map in ascending cookie order,
    the iteration order of an ordered map. */
module Ledger {

  /** A quint32 cookie. */
  type Cookie = c: int | 0 <= c < 0x1_0000_0000

  /** The smallest cookie of a non-empty set. */
  ghost function MinKey(s: set<Cookie>): (k: Cookie)
    requires s != {}
    ensures k in s
    ensures forall x :: x in s ==> k <= x
    decreases |s|
  {
    var x :| x in s;
    if s == {x} then x
    else
      var y := MinKey(s - {x});
      assert forall z :: z in s ==> z == x || z in s - {x};
      if x <= y then x else y
  }

  /** The cookies of a set in ascending order. */
  ghost function SortedKeys(s: set<Cookie>): (ks: seq<Cookie>)
    ensures forall k :: k in ks ==> k in s
    decreases |s|
  {
    if s == {} then []
    else
      var m := MinKey(s);
      [m] + SortedKeys(s - {m})
  }

  /** The values stored under the keys `ks`, in that order. */
  function ValuesAt(m: map<Cookie, string>, ks: seq<Cookie>): (vs: seq<string>)
    requires forall k :: k in ks ==> k in m
    ensures |vs| == |ks|
    ensures forall i :: 0 <= i < |ks| ==> vs[i] == m[ks[i]]
  {
    if ks == [] then [] else [m[ks[0]]] + ValuesAt(m, ks[1..])
  }

  /** The listing of a ledger: its application names in ascending cookie order. */
  ghost function InKeyOrder(m: map<Cookie, string>): seq<string>
  {
    ValuesAt(m, SortedKeys(m.Keys))
  }

  /** The loop of ScreenSaverInhibitors/PowerManagementInhibitors: visit the
      cookies from the smallest up and append each one's application name. */
  method Values(m: map<Cookie, string>) returns (vs: seq<string>)
    ensures vs == InKeyOrder(m)
  {
    var rest := m.Keys;
    vs := [];
    while rest != {}
      invariant rest <= m.Keys
      invariant vs + ValuesAt(m, SortedKeys(rest)) == InKeyOrder(m)
      decreases |rest|
    {
      ghost var least := MinKey(rest);
      assert least in rest && forall x :: x in rest ==> least <= x;
      var k :| k in rest && forall x :: x in rest ==> k <= x;
      assert k == least;
      assert SortedKeys(rest) == [k] + SortedKeys(rest - {k});
      assert ValuesAt(m, SortedKeys(rest)) == [m[k]] + ValuesAt(m, SortedKeys(rest - {k}));
      vs := vs + [m[k]];
      rest := rest - {k};
    }
  }

  /** SortedKeys enumerates its set exactly, in strictly ascending order. */
  lemma {:induction false} SortedKeysSorted(s: set<Cookie>)
    ensures |SortedKeys(s)| == |s|
    ensures forall k :: k in s ==> k in SortedKeys(s)
    ensures forall i, j :: 0 <= i < j < |SortedKeys(s)| ==> SortedKeys(s)[i] < SortedKeys(s)[j]
    decreases |s|
  {
    if s != {} {
      var m := MinKey(s);
      var rest := s - {m};
      SortedKeysSorted(rest);
      var ks := SortedKeys(s);
      assert ks == [m] + SortedKeys(rest);
      assert forall k :: k in s ==> k == m || k in rest;
      forall i, j | 0 <= i < j < |ks| ensures ks[i] < ks[j] {
        if i == 0 {
          assert ks[j] in rest;
        } else {
          assert ks[i] == SortedKeys(rest)[i - 1] && ks[j] == SortedKeys(rest)[j - 1];
        }
      }
    }
  }

  /** Every ledger entry is listed once, and the listing order is the cookie order:
      entry i of the listing belongs to the i-th smallest cookie. */
  lemma ListingIsOrdered(m: map<Cookie, string>)
    ensures |InKeyOrder(m)| == |m|
    ensures var ks := SortedKeys(m.Keys);
      && (forall i, j :: 0 <= i < j < |ks| ==> ks[i] < ks[j])
      && (forall c :: c in m <==> c in ks)
      && (forall i :: 0 <= i < |ks| ==> InKeyOrder(m)[i] == m[ks[i]])
  {
    SortedKeysSorted(m.Keys);
    assert |m.Keys| == |m|;
  }

  /** Adding a cookie larger than every held cookie puts its application last. */
  lemma {:induction false} SortedKeysAppend(s: set<Cookie>, c: Cookie)
    requires forall x :: x in s ==> x < c
    ensures SortedKeys(s + {c}) == SortedKeys(s) + [c]
    decreases |s|
  {
    if s == {} {
      assert s + {c} == {c};
      assert SortedKeys({c}) == [MinKey({c})] + SortedKeys({c} - {MinKey({c})});
      assert {c} - {c} == {};
    } else {
      var m := MinKey(s);
      var t := s + {c};
      assert MinKey(t) == m;
      assert t - {m} == (s - {m}) + {c};
      SortedKeysAppend(s - {m}, c);
      assert SortedKeys(t) == [m] + SortedKeys(t - {m});
    }
  }

  lemma NewestCookieListedLast(m: map<Cookie, string>, c: Cookie, application: string)
    requires forall x :: x in m ==> x < c
    ensures InKeyOrder(m[c := application]) == InKeyOrder(m) + [application]
  {
    var m' := m[c := application];
    assert m'.Keys == m.Keys + {c};
    SortedKeysAppend(m.Keys, c);
    var ks := SortedKeys(m.Keys);
    var l := ValuesAt(m', ks + [c]);
    var before := ValuesAt(m, ks);
    assert l == InKeyOrder(m');
    assert before == InKeyOrder(m);
    forall i | 0 <= i < |ks| ensures l[i] == before[i] {
      assert ks[i] in m && (ks + [c])[i] == ks[i];
    }
    assert l[|ks|] == application;
    assert l == before + [application];
  }
}
