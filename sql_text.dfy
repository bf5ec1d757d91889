/** Facts about SQL statement text: how many positional `%s` markers a
    text holds, and Python's `', '.join`. */
module SqlText {

  /** The positional parameter marker of the MySQL connector. */
  const Placeholder: string := "%s"

  /** The separator of `', '.join(...)`. */
  const Comma: string := ", "

  /** The number of `%s` markers in `s`, i.e. the number of arguments the
      connector substitutes into it. */
  function Placeholders(s: string): nat {
    if |s| < 2 then 0
    else (if s[0] == '%' && s[1] == 's' then 1 else 0) + Placeholders(s[1..])
  }

  /** `s` does not end in the first half of a marker, so nothing appended
      to it can form a new `%s` across the seam. */
  predicate EndsClear(s: string) {
    s == [] || s[|s| - 1] != '%'
  }

  /** Python's `sep.join(xs)`. */
  function Join(xs: seq<string>, sep: string): string {
    if |xs| == 0 then ""
    else if |xs| == 1 then xs[0]
    else xs[0] + sep + Join(xs[1..], sep)
  }

  lemma {:induction false} PercentFree(s: string)
    requires '%' !in s
    ensures Placeholders(s) == 0 && EndsClear(s)
  {
    if |s| >= 2 {
      assert s[1..][..] == s[1..];
      assert forall c :: c in s[1..] ==> c in s;
      PercentFree(s[1..]);
    }
  }

  lemma {:induction false} PlaceholdersConcat(a: string, b: string)
    requires EndsClear(a)
    ensures Placeholders(a + b) == Placeholders(a) + Placeholders(b)
    decreases |a|
  {
    if |a| == 0 {
      assert a + b == b;
    } else if |a| == 1 {
      if |b| > 0 {
        assert (a + b)[1..] == b;
      }
    } else {
      assert (a + b)[1..] == a[1..] + b;
      PlaceholdersConcat(a[1..], b);
    }
  }

  lemma MarkerCount()
    ensures Placeholders(Placeholder) == 1 && EndsClear(Placeholder)
  {
    assert Placeholder[1..] == "s";
  }

  /** A text built of allow-listed pieces around one marker has one marker. */
  lemma {:induction false} OneMarkerAfter(prefix: string)
    requires '%' !in prefix
    ensures Placeholders(prefix + Placeholder) == 1
    ensures EndsClear(prefix + Placeholder)
  {
    PercentFree(prefix);
    PlaceholdersConcat(prefix, Placeholder);
    MarkerCount();
  }

  /** Joining texts of one marker each gives one marker per text, and
      the joined text is still safe to extend. */
  lemma {:induction false} JoinPlaceholders(xs: seq<string>)
    requires forall i :: 0 <= i < |xs| ==> Placeholders(xs[i]) == 1 && EndsClear(xs[i])
    ensures Placeholders(Join(xs, Comma)) == |xs|
    ensures EndsClear(Join(xs, Comma))
  {
    if |xs| >= 2 {
      JoinPlaceholders(xs[1..]);
      CommaStep(xs[0], Join(xs[1..], Comma));
    }
  }

  /** One step of a join: markers add up across `, `. */
  lemma CommaStep(x: string, rest: string)
    requires EndsClear(x) && EndsClear(rest)
    ensures Placeholders(x + Comma + rest) == Placeholders(x) + Placeholders(rest)
    ensures EndsClear(x + Comma + rest)
  {
    PercentFree(Comma);
    assert x + Comma + rest == x + (Comma + rest);
    PlaceholdersConcat(x, Comma + rest);
    PlaceholdersConcat(Comma, rest);
    EndsClearConcat(x, Comma);
    EndsClearConcat(x + Comma, rest);
  }

  /** Joining `%`-free texts with `, ` gives a `%`-free text. */
  lemma {:induction false} JoinPercentFree(xs: seq<string>)
    requires forall i :: 0 <= i < |xs| ==> '%' !in xs[i]
    ensures '%' !in Join(xs, Comma)
  {
    if |xs| >= 2 {
      JoinPercentFree(xs[1..]);
    }
  }

  /** Markers add up over a text assembled from five pieces, as long as no
      piece but the last ends in `%`. */
  lemma ConcatFive(a: string, b: string, c: string, d: string, e: string)
    requires EndsClear(a) && EndsClear(b) && EndsClear(c) && EndsClear(d)
    ensures Placeholders(a + b + c + d + e)
         == Placeholders(a) + Placeholders(b) + Placeholders(c) + Placeholders(d) + Placeholders(e)
  {
    EndsClearConcat(a, b);
    EndsClearConcat(a + b, c);
    EndsClearConcat(a + b + c, d);
    PlaceholdersConcat(a, b);
    PlaceholdersConcat(a + b, c);
    PlaceholdersConcat(a + b + c, d);
    PlaceholdersConcat(a + b + c + d, e);
  }

  /** Markers add up over a text assembled from three pieces. */
  lemma ConcatThree(a: string, b: string, c: string)
    requires EndsClear(a) && EndsClear(b)
    ensures Placeholders(a + b + c) == Placeholders(a) + Placeholders(b) + Placeholders(c)
  {
    EndsClearConcat(a, b);
    PlaceholdersConcat(a, b);
    PlaceholdersConcat(a + b, c);
  }

  lemma EndsClearConcat(a: string, b: string)
    requires EndsClear(a) && EndsClear(b)
    ensures EndsClear(a + b)
  {
    if b != [] {
      assert (a + b)[|a + b| - 1] == b[|b| - 1];
    }
  }
}
