/**
 * `getPublicId` of the Cloudinary image component: a Cloudinary delivery
 * URL is reduced to the image's public id with the regular expression
 * `/\/image\/upload\/(?:v\d+\/)?([^/.]+)(?:\.\w+)?$/`; any other URL, and a
 * Cloudinary URL the expression does not match, is kept whole.
 *
 * The expression is modelled as JavaScript's backtracking search runs it:
 * the leftmost start position that leads to a match wins, the optional
 * version segment is tried before it is skipped, and the match must reach
 * the end of the URL.
 */
module CloudinaryId {
  import opened Wrappers
  import opened Text

  const UploadMarker := "/image/upload/"
  const CloudinaryHost := "cloudinary.com"

  /** `\w`. */
  predicate IsWordChar(c: char)
  {
    'a' <= c <= 'z' || 'A' <= c <= 'Z' || '0' <= c <= '9' || c == '_'
  }

  /** `[^/.]+`: a non-empty public id without '/' or '.'. */
  predicate IsStem(n: string)
  {
    |n| >= 1 && '/' !in n && '.' !in n
  }

  /** `(?:\.\w+)?` followed by the end of the input. */
  predicate IsExtension(e: string)
  {
    e == [] || (|e| >= 2 && e[0] == '.' && forall i :: 1 <= i < |e| ==> IsWordChar(e[i]))
  }

  /** `(?:v\d+\/)?`. */
  predicate IsVersion(v: string)
  {
    v == [] || (|v| >= 3 && v[0] == 'v' && v[|v| - 1] == '/' && |v[1..|v| - 1]| >= 1 && AllDigits(v[1..|v| - 1]))
  }

  /** The length of the longest prefix of `t` free of '/' and '.'. */
  function StemLength(t: string): (k: nat)
    ensures k <= |t| && '/' !in t[..k] && '.' !in t[..k]
    ensures k < |t| ==> t[k] == '/' || t[k] == '.'
  {
    if t != [] && t[0] != '/' && t[0] != '.' then
      assert t[..1 + StemLength(t[1..])] == [t[0]] + t[1..][..StemLength(t[1..])];
      1 + StemLength(t[1..])
    else 0
  }

  /** `([^/.]+)(?:\.\w+)?$` at the start of `t`: the greedy stem, then an optional extension up to the end. */
  function StemMatch(t: string): (r: Option<string>)
    ensures r.Some? ==> IsStem(r.value) && |r.value| <= |t| && r.value == t[..|r.value|] && IsExtension(t[|r.value|..])
  {
    var k := StemLength(t);
    if k >= 1 && IsExtension(t[k..]) then Some(t[..k]) else None
  }

  /** What follows the marker: the version segment first, then without it. */
  function TailMatch(t: string): Option<string>
  {
    var withVersion :=
      if t != [] && t[0] == 'v' then
        var digits := DigitPrefix(t[1..]);
        if |digits| >= 1 && |digits| + 1 < |t| && t[|digits| + 1] == '/' then StemMatch(t[|digits| + 2..])
        else None
      else None;
    if withVersion.Some? then withVersion else StemMatch(t)
  }

  /** The capture of the leftmost match starting at `p` or later. */
  function MatchFrom(url: string, p: nat): Option<string>
    decreases |url| - p
  {
    if p + |UploadMarker| > |url| then None
    else if OccursAt(url, UploadMarker, p) && TailMatch(url[p + |UploadMarker|..]).Some? then
      TailMatch(url[p + |UploadMarker|..])
    else MatchFrom(url, p + 1)
  }

  /**
   * `getPublicId(url)`: the URL itself, or a public id with no '/' or '.';
   * a URL outside Cloudinary is kept.
   */
  function GetPublicId(url: string): (r: string)
    ensures r == url || IsStem(r)
    ensures !Contains(url, CloudinaryHost) ==> r == url
  {
    MatchFromIsStem(url, 0);
    if !Contains(url, CloudinaryHost) then url
    else match MatchFrom(url, 0)
      case Some(id) => id
      case None => url
  }

  lemma {:induction false} MatchFromIsStem(url: string, p: nat)
    ensures MatchFrom(url, p).Some? ==> IsStem(MatchFrom(url, p).value)
    decreases |url| - p
  {
    if p + |UploadMarker| <= |url| && !(OccursAt(url, UploadMarker, p) && TailMatch(url[p + |UploadMarker|..]).Some?) {
      MatchFromIsStem(url, p + 1);
    }
  }

  /** Applying `getPublicId` twice gives what applying it once gives. */
  lemma PublicIdIdempotent(url: string)
    ensures GetPublicId(GetPublicId(url)) == GetPublicId(url)
  {
    var id := GetPublicId(url);
    if id != url && Contains(id, CloudinaryHost) {
      assert CloudinaryHost[10] == '.';
      ContainedCharOccurs(id, CloudinaryHost, 10);
    }
  }

  /** The stem of `n + x` is `n` when `x` is empty or starts with '/' or '.'. */
  lemma {:induction false} StemLengthOf(n: string, x: string)
    requires '/' !in n && '.' !in n
    requires x == [] || x[0] == '/' || x[0] == '.'
    ensures StemLength(n + x) == |n|
  {
    if n != [] {
      assert (n + x)[1..] == n[1..] + x;
      assert (n + x)[0] == n[0];
      StemLengthOf(n[1..], x);
    }
  }

  /** A stem followed by an extension is matched whole, and holds no '/'. */
  lemma StemOf(n: string, e: string)
    requires IsStem(n) && IsExtension(e)
    ensures StemMatch(n + e) == Some(n)
    ensures forall j :: 0 <= j < |n + e| ==> (n + e)[j] != '/'
  {
    var t := n + e;
    StemLengthOf(n, e);
    assert t[..|n|] == n && t[|n|..] == e;
    forall j | 0 <= j < |t|
      ensures t[j] != '/'
    {
      if j < |n| {
        assert t[j] == n[j];
      } else {
        assert t[j] == e[j - |n|];
      }
    }
  }

  /** A stem and an optional extension after the marker yield the stem, with or without a version segment. */
  lemma TailMatchComplete(v: string, n: string, e: string)
    requires IsVersion(v) && IsStem(n) && IsExtension(e)
    ensures TailMatch(v + n + e) == Some(n)
  {
    StemOf(n, e);
    var t := v + n + e;
    if v != [] {
      var ds := v[1..|v| - 1];
      assert t[1..] == ds + ("/" + (n + e));
      DigitPrefixOf(ds, "/" + (n + e));
      assert t[|ds| + 1] == '/';
      assert t[|ds| + 2..] == n + e;
    } else {
      assert t == n + e;
    }
  }

  /** Reading digits past the first non-digit of `a` reads nothing more. */
  lemma {:induction false} DigitPrefixAppend(a: string, x: string)
    requires |DigitPrefix(a)| < |a|
    ensures DigitPrefix(a + x) == DigitPrefix(a)
  {
    assert (a + x)[0] == a[0];
    if IsDigit(a[0]) {
      assert (a + x)[1..] == a[1..] + x;
      DigitPrefixAppend(a[1..], x);
    }
  }

  /** Without the version segment, a '/' after the marker cannot be matched. */
  lemma StemFailsOnSlash(f: string, rest: string)
    requires '/' !in f
    ensures StemMatch(f + "/" + rest) == None
  {
    var t := f + "/" + rest;
    assert t == f + ("/" + rest);
    assert t[|f|] == '/';
    var k := StemLength(t);
    if '.' !in f {
      StemLengthOf(f, "/" + rest);
    } else {
      var i :| 0 <= i < |f| && f[i] == '.';
      assert t[i] == '.';
      assert t[k..][|f| - k] == '/';
    }
  }

  /** A folder that is not a version segment makes the expression fail. */
  lemma NestedFolderFails(f: string, rest: string)
    requires '/' !in f && !IsVersion(f + "/")
    ensures TailMatch(f + "/" + rest) == None
  {
    var t := f + "/" + rest;
    StemFailsOnSlash(f, rest);
    if f != [] {
      var a := f[1..];
      assert t[1..] == a + ("/" + rest);
      var g := DigitPrefix(a);
      if |g| == |a| {
        DigitPrefixOf(a, "/" + rest);
        assert (f + "/")[1..|f|] == a;
      } else {
        DigitPrefixAppend(a, "/" + rest);
        assert t[|g| + 1] == f[|g| + 1];
        assert f[|g| + 1] in f;
      }
    }
  }

  /** A query string after the extension makes the expression fail. */
  lemma QueryAfterExtensionFails(n: string, e: string, q: string)
    requires IsStem(n) && IsExtension(e) && e != []
    ensures TailMatch(n + e + "?" + q) == None
  {
    var t := n + e + "?" + q;
    assert t == n + (e + "?" + q);
    StemLengthOf(n, e + "?" + q);
    assert t[|n|..][|e|] == '?';
    var digits := DigitPrefix(t[1..]);
    var m := |digits|;
    assert t[|n|] == '.';
    assert m + 1 <= |n|;
    assert m + 1 < |n| ==> t[m + 1] == n[m + 1];
  }

  /**
   * A Cloudinary URL whose first "/image/upload/" is followed by an optional
   * version, the public id and an optional extension yields that public id.
   */
  lemma PublicIdOfDeliveryUrl(prefix: string, v: string, n: string, e: string)
    requires Contains(prefix, CloudinaryHost)
    requires IsVersion(v) && IsStem(n) && IsExtension(e)
    requires forall p :: 0 <= p < |prefix| ==> !OccursAt(prefix + UploadMarker + v + n + e, UploadMarker, p)
    ensures GetPublicId(prefix + UploadMarker + v + n + e) == n
  {
    var url := prefix + UploadMarker + v + n + e;
    var tail := v + n + e;
    assert url == prefix + (UploadMarker + tail);
    ContainedInPrefix(prefix, UploadMarker + tail, CloudinaryHost);
    MarkerThenTail(prefix, tail);
    TailMatchComplete(v, n, e);
    SkipToMarker(url, 0, |prefix|);
  }

  /** A word inside `a` is inside `a + b`. */
  lemma ContainedInPrefix(a: string, b: string, w: string)
    requires Contains(a, w)
    ensures Contains(a + b, w)
  {
    var i :| 0 <= i <= |a| - |w| && OccursAt(a, w, i);
    assert (a + b)[i..i + |w|] == a[i..i + |w|];
    assert OccursAt(a + b, w, i);
  }

  /** The marker right after `prefix`, and what follows it. */
  lemma MarkerThenTail(prefix: string, tail: string)
    ensures var url := prefix + (UploadMarker + tail);
      url[|prefix|..|prefix| + |UploadMarker|] == UploadMarker && url[|prefix| + |UploadMarker|..] == tail
  {
  }

  /** With no marker before `q`, the search from `p` is the search from `q`. */
  lemma {:induction false} SkipToMarker(url: string, p: nat, q: nat)
    requires p <= q && q + |UploadMarker| <= |url|
    requires forall i :: p <= i < q ==> !OccursAt(url, UploadMarker, i)
    ensures MatchFrom(url, p) == MatchFrom(url, q)
    decreases q - p
  {
    if p < q {
      SkipToMarker(url, p + 1, q);
    }
  }
}
