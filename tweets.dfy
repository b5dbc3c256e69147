/** Picking the signature out of the tweets the search API returns
    (handlers/verify.js): the regular expression `(?<=sig:).*`, the
    `Array.prototype.find` over the tweets and the `slice(0, 132)`. */
module Tweets {
  import opened Wrappers
  import opened Strings

  /** One element of the search response's `data` array. */
  datatype Tweet = Tweet(id: string, text: string)

  /** The text the look-behind of the regular expression requires. */
  const Marker: string := "sig:"

  /** An Ethereum signature: 65 bytes in hexadecimal with a `0x` prefix. */
  const SignatureLength: nat := 132

  /** The characters a JavaScript `.` does not match. */
  predicate IsLineTerminator(c: char) {
    c == '\n' || c == '\r' || c == '\U{2028}' || c == '\U{2029}'
  }

  predicate NoLineTerminator(s: string) {
    forall i :: 0 <= i < |s| ==> !IsLineTerminator(s[i])
  }

  /** What a greedy `.*` matches at the start of `s`: everything up to the
      first line terminator. */
  function RestOfLine(s: string): (r: string)
    ensures r <= s
    ensures NoLineTerminator(r)
    ensures |r| == |s| || IsLineTerminator(s[|r|])
  {
    if s == [] || IsLineTerminator(s[0]) then [] else [s[0]] + RestOfLine(s[1..])
  }

  /** `text.match(sigReg)`: `None` stands for JavaScript's `null`, otherwise
      the matched text (element 0 of the match array). */
  function SigMatch(text: string): Option<string> {
    match IndexOf(text, Marker)
    case None => None
    case Some(i) => Some(RestOfLine(text[i + |Marker|..]))
  }

  /** The predicate given to `tweets.find`: `!!tweet.text.match(sigReg)`. */
  predicate Marked(t: Tweet) {
    SigMatch(t.text).Some?
  }

  /** `tweets.find(...)`: the first marked tweet, in the order of the list. */
  function Find(ts: seq<Tweet>): (r: Option<Tweet>)
    ensures r.None? <==> forall k :: 0 <= k < |ts| ==> !Marked(ts[k])
    ensures r.Some? ==> Marked(r.value)
    ensures r.Some? ==> exists k :: 0 <= k < |ts| && ts[k] == r.value &&
                                    forall j :: 0 <= j < k ==> !Marked(ts[j])
  {
    if ts == [] then None
    else if Marked(ts[0]) then Some(ts[0])
    else
      var r := Find(ts[1..]);
      assert forall k :: 1 <= k < |ts| ==> ts[k] == ts[1..][k - 1];
      r
  }

  /** `matchedText.match(sigReg)[0].slice(0, 132)`. */
  function Signature(text: string): (sig: string)
    requires SigMatch(text).Some?
    ensures |sig| <= SignatureLength
    ensures sig <= SigMatch(text).value
    ensures |sig| == SignatureLength || sig == SigMatch(text).value
  {
    var m := SigMatch(text).value;
    m[..Min(|m|, SignatureLength)]
  }

  // The regular expression's own semantics, as a reference for `SigMatch`.

  /** The look-behind `(?<=sig:)` holds at position `p`. */
  ghost predicate LookbehindAt(s: string, p: int) {
    |Marker| <= p <= |s| && s[p - |Marker|..p] == Marker
  }

  /** A greedy `.*` tried at position `p` matches exactly `m`. */
  ghost predicate DotStarAt(s: string, p: int, m: string) {
    0 <= p && p + |m| <= |s| && s[p..p + |m|] == m && NoLineTerminator(m) &&
    (p + |m| == |s| || IsLineTerminator(s[p + |m|]))
  }

  /** `SigMatch` is what the engine returns for `(?<=sig:).*`: it matches iff
      the look-behind holds somewhere, and then the match starts at the
      leftmost such position and runs to the end of that line. */
  lemma SigMatchIsRegexMatch(s: string)
    ensures SigMatch(s).Some? <==> exists p :: LookbehindAt(s, p)
    ensures SigMatch(s).Some? ==>
      exists p :: LookbehindAt(s, p) && DotStarAt(s, p, SigMatch(s).value) &&
                  forall q :: 0 <= q < p ==> !LookbehindAt(s, q)
  {
    match IndexOf(s, Marker)
    case None =>
      forall p | LookbehindAt(s, p) ensures false {
        assert OccursAt(s, Marker, p - |Marker|);
      }
    case Some(i) =>
      var p := i + |Marker|;
      var m := SigMatch(s).value;
      assert LookbehindAt(s, p);
      assert s[p..] == s[p..][..|m|] + s[p..][|m|..];
      assert DotStarAt(s, p, m);
      forall q | 0 <= q < p ensures !LookbehindAt(s, q) {
        if LookbehindAt(s, q) {
          assert OccursAt(s, Marker, q - |Marker|);
        }
      }
  }

  /** No occurrence of the marker can straddle the end of a text that does
      not contain it and a marker appended to it: "sig:" has no proper
      prefix that is also a suffix. */
  lemma FirstMarkerAfter(pre: string, post: string)
    requires IndexOf(pre, Marker).None?
    ensures IndexOf(pre + Marker + post, Marker) == Some(|pre|)
  {
    var s := pre + Marker + post;
    assert s[|pre|..|pre| + |Marker|] == Marker;
    forall j | 0 <= j < |pre| ensures !OccursAt(s, Marker, j) {
      if j + |Marker| <= |pre| {
        assert pre[j..j + |Marker|] == s[j..j + |Marker|];
        assert !OccursAt(pre, Marker, j);
      } else {
        // it would end inside the appended marker, whose 's' it would have to
        // match with one of "ig:"
        var d := |pre| - j;
        assert s[j + d] == 's' != Marker[d];
      }
    }
    IndexOfIsFirst(s, Marker, |pre|);
  }

  /** A tweet "<pre>sig:<post>" whose prefix has no marker yields the rest
      of the first line of `post`, cut to 132 characters. */
  lemma SignatureAfterFirstMarker(pre: string, post: string)
    requires IndexOf(pre, Marker).None?
    ensures SigMatch(pre + Marker + post) == Some(RestOfLine(post))
    ensures Signature(pre + Marker + post) ==
            RestOfLine(post)[..Min(|RestOfLine(post)|, SignatureLength)]
  {
    FirstMarkerAfter(pre, post);
    assert (pre + Marker + post)[|pre| + |Marker|..] == post;
  }

  /** `find` skips every unmarked tweet before the first marked one, whatever
      follows it. */
  lemma {:induction false} FindSkipsUnmarked(pre: seq<Tweet>, t: Tweet, post: seq<Tweet>)
    requires forall k :: 0 <= k < |pre| ==> !Marked(pre[k])
    requires Marked(t)
    ensures Find(pre + [t] + post) == Some(t)
  {
    if pre != [] {
      assert (pre + [t] + post)[1..] == pre[1..] + [t] + post;
      FindSkipsUnmarked(pre[1..], t, post);
    }
  }
}
