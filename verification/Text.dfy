// Text in the order that Go and SQLite compare it, and listing rows by a text column.
module Text {
  import opened Common

  predicate TextLe(a: string, b: string) {
    if a == "" then true
    else if b == "" then false
    else a[0] < b[0] || (a[0] == b[0] && TextLe(a[1..], b[1..]))
  }

  lemma {:induction false} TextTotal(a: string, b: string)
    ensures TextLe(a, b) || TextLe(b, a)
    ensures TextLe(a, b) && TextLe(b, a) ==> a == b
  {
    if a != "" && b != "" {
      TextTotal(a[1..], b[1..]);
      assert a == [a[0]] + a[1..] && b == [b[0]] + b[1..];
    }
  }

  lemma {:induction false} TextTransitive(a: string, b: string, c: string)
    requires TextLe(a, b) && TextLe(b, c)
    ensures TextLe(a, c)
  {
    if a != "" {
      if a[0] == b[0] == c[0] {
        TextTransitive(a[1..], b[1..], c[1..]);
      }
    }
  }

  /** The order is that of the first difference, or a prefix comes first. */
  lemma {:induction false} TextOrder(a: string, b: string)
    ensures TextLe(a, b) <==>
      a <= b || exists k :: 0 <= k < |a| && k < |b| && a[..k] == b[..k] && a[k] < b[k]
  {
    if a != "" && b != "" && a[0] == b[0] {
      var x, y := a[1..], b[1..];
      TextOrder(x, y);
      assert a == [a[0]] + x && b == [b[0]] + y;
      assert x <= y <==> a <= b;
      if k :| 0 <= k < |x| && k < |y| && x[..k] == y[..k] && x[k] < y[k] {
        assert a[..k + 1] == [a[0]] + x[..k] && b[..k + 1] == [b[0]] + y[..k];
      }
      if k :| 0 <= k < |a| && k < |b| && a[..k] == b[..k] && a[k] < b[k] {
        assert a[..k][1..] == x[..k - 1] && b[..k][1..] == y[..k - 1] && x[k - 1] < y[k - 1];
      }
    } else if a != "" && b != "" {
      assert a[..0] == b[..0];
    }
  }

  lemma {:induction false} ConcatOrder(a: string, b: string, x: string, y: string)
    requires |a| == |b|
    ensures TextLe(a + x, b + y) <==> if a == b then TextLe(x, y) else TextLe(a, b)
  {
    if a == "" {
      assert a + x == x && b + y == y;
    } else {
      assert (a + x)[1..] == a[1..] + x && (b + y)[1..] == b[1..] + y;
      ConcatOrder(a[1..], b[1..], x, y);
      assert a == [a[0]] + a[1..] && b == [b[0]] + b[1..];
    }
  }

  lemma {:induction false} DigitsOrder(n: nat, m: nat, width: nat)
    requires n < Pow10(width) && m < Pow10(width)
    ensures TextLe(Digits(n, width), Digits(m, width)) <==> n <= m
    decreases width
  {
    if width > 0 {
      var front, back := Digits(n / 10, width - 1), Digits(m / 10, width - 1);
      DigitsOrder(n / 10, m / 10, width - 1);
      DigitsOrder(m / 10, n / 10, width - 1);
      TextTotal(front, back);
      ConcatOrder(front, back, [('0' as int + n % 10) as char], [('0' as int + m % 10) as char]);
    }
  }

  // ---------- decimal numbers ----------

  function Pow10(n: nat): (p: nat)
    ensures p > 0
  {
    if n == 0 then 1 else 10 * Pow10(n - 1)
  }

  function Digits(n: nat, width: nat): (s: string)
    requires n < Pow10(width)
    ensures |s| == width
  {
    if width == 0 then "" else Digits(n / 10, width - 1) + [('0' as int + n % 10) as char]
  }

  function ParseDigits(s: string): Option<nat> {
    if s == "" then Some(0)
    else
      var last := s[|s| - 1];
      match ParseDigits(s[..|s| - 1])
      case Some(n) => if '0' <= last <= '9' then Some(10 * n + (last as int - '0' as int)) else None
      case None => None
  }

  lemma {:induction false} DigitsRead(n: nat, width: nat)
    requires n < Pow10(width)
    ensures ParseDigits(Digits(n, width)) == Some(n)
  {
    if width > 0 {
      DigitsRead(n / 10, width - 1);
      assert Digits(n, width)[..width - 1] == Digits(n / 10, width - 1);
    }
  }

  lemma {:induction false} DigitsAreDigits(n: nat, width: nat)
    requires n < Pow10(width)
    ensures forall k :: 0 <= k < width ==> '0' <= Digits(n, width)[k] <= '9'
  {
    if width > 0 {
      DigitsAreDigits(n / 10, width - 1);
    }
  }

  ghost predicate SortedBy<K>(order: seq<K>, key: K -> string) {
    forall i, j :: 0 <= i < j < |order| ==> TextLe(key(order[i]), key(order[j]))
  }

  lemma {:induction false} LeastExists<K>(s: set<K>, key: K -> string) returns (least: K)
    requires s != {}
    ensures least in s && forall x :: x in s ==> TextLe(key(least), key(x))
  {
    least :| least in s;
    TextTotal(key(least), key(least));
    if s != {least} {
      var other := LeastExists(s - {least}, key);
      TextTotal(key(least), key(other));
      if TextLe(key(least), key(other)) {
        forall x | x in s && x != least
          ensures TextLe(key(least), key(x))
        {
          TextTransitive(key(least), key(other), key(x));
        }
      } else {
        least := other;
      }
    }
  }

  /** ORDER BY key ASC: every element once; ties in any order. */
  method OrderBy<K>(s: set<K>, key: K -> string) returns (order: seq<K>)
    ensures Distinct(order) && ToSet(order) == s && SortedBy(order, key)
  {
    order := [];
    var todo := s;
    while todo != {}
      invariant todo <= s && Distinct(order) && ToSet(order) == s - todo
      invariant SortedBy(order, key)
      invariant forall x, y :: x in order && y in todo ==> TextLe(key(x), key(y))
      decreases todo
    {
      ghost var least := LeastExists(todo, key);
      var k :| k in todo && forall x :: x in todo ==> TextLe(key(k), key(x));
      assert k !in ToSet(order);
      ToSetAppend(order, k);
      order := order + [k];
      todo := todo - {k};
    }
  }

  ghost predicate Listing(names: seq<string>, all: set<string>) {
    Distinct(names) && ToSet(names) == all && SortedBy(names, (n: string) => n)
  }

  /** There is only one sorted listing of a set of names. */
  lemma {:induction false} ListingIsUnique(s: seq<string>, t: seq<string>, all: set<string>)
    requires Listing(s, all) && Listing(t, all)
    ensures s == t
  {
    DistinctSize(s);
    DistinctSize(t);
    if s != [] {
      assert s[0] in ToSet(t) && t[0] in ToSet(s);
      FirstIsLeast(s, t[0]);
      FirstIsLeast(t, s[0]);
      TextTotal(s[0], t[0]);
      RestIsListing(s, all);
      RestIsListing(t, all);
      ListingIsUnique(s[1..], t[1..], all - {s[0]});
      assert s == [s[0]] + s[1..] && t == [t[0]] + t[1..];
    }
  }

  lemma FirstIsLeast(s: seq<string>, x: string)
    requires SortedBy(s, (n: string) => n) && x in s
    ensures TextLe(s[0], x)
  {
    var k :| 0 <= k < |s| && s[k] == x;
    TextTotal(x, x);
    if k > 0 {
      var key := (n: string) => n;
      assert TextLe(key(s[0]), key(s[k]));
    }
  }

  lemma RestIsListing(s: seq<string>, all: set<string>)
    requires Listing(s, all) && s != []
    ensures Listing(s[1..], all - {s[0]})
  {
    var rest := s[1..];
    forall x
      ensures x in ToSet(rest) <==> x in all && x != s[0]
    {
      assert x in all <==> x in ToSet(s);
      if x in all && x != s[0] {
        var k :| 0 <= k < |s| && s[k] == x;
        assert rest[k - 1] == x;
      }
    }
    var key := (n: string) => n;
    forall i, j | 0 <= i < j < |rest|
      ensures TextLe(key(rest[i]), key(rest[j]))
    {
      assert TextLe(key(s[i + 1]), key(s[j + 1]));
    }
  }
}
