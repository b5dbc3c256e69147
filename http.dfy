/** Responses as the Fetch API's `new Response(body, init)` builds them, and
    header values read as comma-separated elements with optional white
    space (empty elements are kept and quoted strings are not handled). */
module Http {
  import opened Wrappers

  /** `status` defaults to 200 and `statusText` to "" when `init` omits them;
      a `null` body is `None`. Header names are kept as the code writes them. */
  datatype Response = Response(status: int, statusText: string, headers: map<string, string>, body: Option<string>)

  /** `s` cut at every `c`. */
  function Split(s: string, c: char): (parts: seq<string>)
    ensures |parts| >= 1
  {
    if s == [] then [""]
    else
      var rest := Split(s[1..], c);
      if s[0] == c then [""] + rest else [[s[0]] + rest[0]] + rest[1..]
  }

  /** The elements of `xs` with `sep` between each two. */
  function Join(xs: seq<string>, sep: string): string {
    if |xs| == 0 then ""
    else if |xs| == 1 then xs[0]
    else xs[0] + sep + Join(xs[1..], sep)
  }

  lemma {:induction false} SplitLast(a: string, c: char)
    requires c !in a
    ensures Split(a, c) == [a]
  {
    if a != [] {
      SplitLast(a[1..], c);
      assert [a[0]] + a[1..] == a;
    }
  }

  lemma {:induction false} SplitStep(a: string, c: char, rest: string)
    requires c !in a
    ensures Split(a + [c] + rest, c) == [a] + Split(rest, c)
  {
    var s := a + [c] + rest;
    if a == [] {
      assert s[1..] == rest;
    } else {
      assert s[1..] == a[1..] + [c] + rest;
      SplitStep(a[1..], c, rest);
      assert [a[0]] + a[1..] == a;
    }
  }

  /** Cutting a joined list at the separator's comma gives back the elements,
      each after the first preceded by the rest of the separator. */
  lemma {:induction false} SplitJoin(xs: seq<string>, c: char, w: string)
    requires |xs| >= 1
    requires c !in w
    requires forall i :: 0 <= i < |xs| ==> c !in xs[i]
    ensures |Split(Join(xs, [c] + w), c)| == |xs|
    ensures Split(Join(xs, [c] + w), c)[0] == xs[0]
    ensures forall i :: 1 <= i < |xs| ==> Split(Join(xs, [c] + w), c)[i] == w + xs[i]
  {
    if |xs| == 1 {
      SplitLast(xs[0], c);
    } else {
      var rest := Join(xs[1..], [c] + w);
      assert Join(xs, [c] + w) == xs[0] + [c] + (w + rest);
      SplitStep(xs[0], c, w + rest);
      SplitJoin(xs[1..], c, w);
      // the separator's white space sticks to the first element of the tail
      SplitPrefix(w, c, rest);
    }
  }

  /** Text without the separator, put in front, joins the first part. */
  lemma {:induction false} SplitPrefix(w: string, c: char, s: string)
    requires c !in w
    ensures Split(w + s, c) == [w + Split(s, c)[0]] + Split(s, c)[1..]
  {
    if w != [] {
      assert (w + s)[1..] == w[1..] + s;
      SplitPrefix(w[1..], c, s);
      assert [w[0]] + (w[1..] + Split(s, c)[0]) == w + Split(s, c)[0];
    } else {
      var parts := Split(s, c);
      assert w + s == s && w + parts[0] == parts[0];
      assert [parts[0]] + parts[1..] == parts;
    }
  }

  predicate IsOws(c: char) {
    c == ' ' || c == '\t'
  }

  /** `s` without the optional white space around it. */
  function Trim(s: string): (r: string)
    ensures |r| <= |s|
    decreases |s|
  {
    if s != [] && IsOws(s[0]) then Trim(s[1..])
    else if s != [] && IsOws(s[|s| - 1]) then Trim(s[..|s| - 1])
    else s
  }

  lemma TrimKeeps(s: string)
    requires s != [] && !IsOws(s[0]) && !IsOws(s[|s| - 1])
    ensures Trim(s) == s
  {
  }

  /** Optional white space only. */
  predicate AllOws(w: string) {
    forall i :: 0 <= i < |w| ==> IsOws(w[i])
  }

  lemma {:induction false} TrimLeading(w: string, x: string)
    requires AllOws(w)
    requires x != [] && !IsOws(x[0]) && !IsOws(x[|x| - 1])
    ensures Trim(w + x) == x
  {
    if w == [] {
      assert w + x == x;
      TrimKeeps(x);
    } else {
      assert (w + x)[1..] == w[1..] + x;
      TrimLeading(w[1..], x);
    }
  }

  /** The elements of a comma-separated header value. */
  function ParseList(s: string): (elems: seq<string>)
    ensures |elems| == |Split(s, ',')|
  {
    var parts := Split(s, ',');
    seq(|parts|, i requires 0 <= i < |parts| => Trim(parts[i]))
  }

  /** An element of a header list: non-empty, without a comma and without
      white space at either end. */
  predicate IsElement(x: string) {
    x != [] && ',' !in x && !IsOws(x[0]) && !IsOws(x[|x| - 1])
  }

  /** A list written with a comma and optional white space between its
      elements parses back to those elements. */
  lemma ParseListJoin(xs: seq<string>, w: string)
    requires |xs| >= 1
    requires AllOws(w)
    requires forall i :: 0 <= i < |xs| ==> IsElement(xs[i])
    ensures ParseList(Join(xs, [','] + w)) == xs
  {
    assert ',' !in w by {
      forall i | 0 <= i < |w| ensures w[i] != ',' {
        assert IsOws(w[i]);
      }
    }
    SplitJoin(xs, ',', w);
    TrimParts(Split(Join(xs, [','] + w), ','), xs, w);
  }

  lemma TrimParts(parts: seq<string>, xs: seq<string>, w: string)
    requires |parts| == |xs| >= 1
    requires AllOws(w)
    requires forall i :: 0 <= i < |xs| ==> IsElement(xs[i])
    requires parts[0] == xs[0]
    requires forall i :: 1 <= i < |xs| ==> parts[i] == w + xs[i]
    ensures seq(|parts|, i requires 0 <= i < |parts| => Trim(parts[i])) == xs
  {
    forall i | 0 <= i < |xs| ensures Trim(parts[i]) == xs[i] {
      if i == 0 {
        TrimKeeps(xs[0]);
      } else {
        TrimLeading(w, xs[i]);
      }
    }
  }
}
