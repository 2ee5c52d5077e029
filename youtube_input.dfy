/** The URL field of the web client: the YouTube link validator and the
    video-thumbnail preview. The two regular expressions are written out as
    string predicates: the validator's anchored pattern as prefix stripping,
    the extractor's unanchored pattern as a leftmost search. */
module YouTubeInput {
  import opened Util

  const Schemes: seq<string> := ["", "http://", "https://"]
  const WwwPrefixes: seq<string> := ["", "www."]

  /** What must follow the optional scheme and `www.` prefix. */
  const Markers: seq<string> := ["youtube.com/watch?v=", "youtube.com/shorts/", "youtu.be/"]

  // ---------------------------------------------------------------------------
  // isValidUrl

  function StripScheme(s: string): string {
    if "https://" <= s then s[8..]
    else if "http://" <= s then s[7..]
    else s
  }

  function StripWww(s: string): string {
    if "www." <= s then s[4..] else s
  }

  predicate StartsWithMarker(s: string) {
    "youtube.com/watch?v=" <= s || "youtube.com/shorts/" <= s || "youtu.be/" <= s
  }

  /** `isValidUrl`: the optional parts stripped, a marker must come first. */
  predicate IsValidUrl(s: string) {
    StartsWithMarker(StripWww(StripScheme(s)))
  }

  /** The pattern as the regular expression reads: the string splits into a
      scheme (possibly none), then `www.` or nothing, then a part that
      begins with a marker. */
  ghost predicate MatchesPattern(s: string) {
    exists i, j | 0 <= i <= j <= |s| ::
      s[..i] in Schemes && s[i..j] in WwwPrefixes && StartsWithMarker(s[j..])
  }

  lemma MarkerStartsWithY(t: string)
    requires StartsWithMarker(t)
    ensures |t| > 0 && t[0] == 'y'
  {
    if "youtube.com/watch?v=" <= t {
      assert t[0] == "youtube.com/watch?v="[0];
    } else if "youtube.com/shorts/" <= t {
      assert t[0] == "youtube.com/shorts/"[0];
    } else {
      assert t[0] == "youtu.be/"[0];
    }
  }

  /** `StripScheme` takes off a scheme from `Schemes`. */
  lemma StripSchemeSplits(s: string)
    ensures |StripScheme(s)| <= |s|
    ensures var i := |s| - |StripScheme(s)|; s[..i] in Schemes && StripScheme(s) == s[i..]
  {
    if "https://" <= s {
      assert s[..8] == Schemes[2];
    } else if "http://" <= s {
      assert s[..7] == Schemes[1];
    } else {
      assert s[..0] == Schemes[0];
    }
  }

  lemma StripWwwSplits(u: string)
    ensures |StripWww(u)| <= |u|
    ensures var k := |u| - |StripWww(u)|; u[..k] in WwwPrefixes && StripWww(u) == u[k..]
  {
    if "www." <= u {
      assert u[..4] == WwwPrefixes[1];
    } else {
      assert u[..0] == WwwPrefixes[0];
    }
  }

  /** A scheme followed by `w` or `y` is the one `StripScheme` takes off. */
  lemma StripSchemeExact(s: string, i: nat)
    requires i < |s| && s[..i] in Schemes && (s[i] == 'w' || s[i] == 'y')
    ensures StripScheme(s) == s[i..]
  {
    if s[..i] == "" {
      assert i == 0;
      assert !("https://" <= s) && !("http://" <= s) by {
        assert s[0] != 'h';
      }
    } else if s[..i] == "http://" {
      assert i == 7;
      assert "http://" <= s;
      assert !("https://" <= s) by {
        assert s[4] == ':';
      }
    } else {
      assert s[..i] == "https://";
      assert i == 8;
      assert "https://" <= s;
    }
  }

  /** A `www.` or nothing, followed by `y`, is what `StripWww` takes off. */
  lemma StripWwwExact(u: string, k: nat)
    requires k < |u| && u[..k] in WwwPrefixes && u[k] == 'y'
    ensures StripWww(u) == u[k..]
  {
    if u[..k] == "" {
      assert k == 0;
      assert !("www." <= u) by {
        assert u[0] != 'w';
      }
    } else {
      assert u[..k] == "www.";
      assert k == 4;
      assert "www." <= u;
    }
  }

  /** Stripping finds the split the pattern needs whenever there is one: no
      other choice of the optional parts can succeed, because a marker never
      starts with `h` or `w`. */
  lemma IsValidUrlMatchesPattern(s: string)
    ensures IsValidUrl(s) <==> MatchesPattern(s)
  {
    if IsValidUrl(s) {
      StripSchemeSplits(s);
      var u := StripScheme(s);
      var i := |s| - |u|;
      StripWwwSplits(u);
      var k := |u| - |StripWww(u)|;
      SliceOfSuffix(s, i, i + k);
      assert s[..i] in Schemes && s[i..i + k] in WwwPrefixes && StartsWithMarker(s[i + k..]);
    }
    if MatchesPattern(s) {
      var i, j :| 0 <= i <= j <= |s| && s[..i] in Schemes && s[i..j] in WwwPrefixes && StartsWithMarker(s[j..]);
      MarkerStartsWithY(s[j..]);
      var u := s[i..];
      SliceOfSuffix(s, i, j);
      StripWwwExact(u, j - i);
      if i < j {
        assert s[i..j] != WwwPrefixes[0];
        assert s[i..j] == WwwPrefixes[1];
        assert s[i] == s[i..j][0] == 'w';
      }
      StripSchemeExact(s, i);
    }
  }

  lemma SliceOfSuffix<T>(s: seq<T>, i: nat, j: nat)
    requires i <= j <= |s|
    ensures s[i..][..j - i] == s[i..j] && s[i..][j - i..] == s[j..]
  {
  }

  lemma SlicesOfAppend<T>(s: seq<T>, t: seq<T>, i: nat, j: nat)
    requires i <= j <= |s|
    ensures (s + t)[..i] == s[..i] && (s + t)[i..j] == s[i..j] && (s + t)[j..] == s[j..] + t
  {
  }

  lemma MarkerExtends(w: string, t: string)
    requires StartsWithMarker(w)
    ensures StartsWithMarker(w + t)
  {
    if "youtube.com/watch?v=" <= w {
      assert (w + t)[..20] == w[..20];
    } else if "youtube.com/shorts/" <= w {
      assert (w + t)[..19] == w[..19];
    } else {
      assert (w + t)[..9] == w[..9];
    }
  }

  /** Validity depends on a prefix only: whatever follows a valid link keeps
      it valid. */
  lemma ValidUrlExtends(s: string, t: string)
    requires IsValidUrl(s)
    ensures IsValidUrl(s + t)
  {
    IsValidUrlMatchesPattern(s);
    var i, j :| 0 <= i <= j <= |s| && s[..i] in Schemes && s[i..j] in WwwPrefixes && StartsWithMarker(s[j..]);
    var st := s + t;
    SlicesOfAppend(s, t, i, j);
    MarkerExtends(s[j..], t);
    IsValidUrlMatchesPattern(st);
  }

  // ---------------------------------------------------------------------------
  // extractThumbnail

  const IdLength: nat := 11

  /** `[a-zA-Z0-9_-]`. */
  predicate IsIdChar(c: char) {
    ('a' <= c <= 'z') || ('A' <= c <= 'Z') || ('0' <= c <= '9') || c == '_' || c == '-'
  }

  predicate IsIdAt(s: string, i: nat) {
    i + IdLength <= |s| && forall k | i <= k < i + IdLength :: IsIdChar(s[k])
  }

  /** The length of the marker that begins at `i`, if one does. The three
      markers exclude one another, so at most one applies. */
  function MarkerAt(s: string, i: nat): (r: Option<nat>)
    ensures r.Some? ==> i + r.value <= |s|
  {
    if i > |s| then None
    else
      var t := s[i..];
      if "youtube.com/watch?v=" <= t then Some(20)
      else if "youtube.com/shorts/" <= t then Some(19)
      else if "youtu.be/" <= t then Some(9)
      else None
  }

  /** The id the pattern captures if a match starts at `i`: a marker, then
      eleven id characters. */
  function MatchAt(s: string, i: nat): Option<string> {
    var m := MarkerAt(s, i);
    if m.Some? && IsIdAt(s, i + m.value) then Some(s[i + m.value..i + m.value + IdLength]) else None
  }

  /** A captured id is eleven id characters. */
  lemma MatchAtIsId(s: string, i: nat)
    requires MatchAt(s, i).Some?
    ensures |MatchAt(s, i).value| == IdLength
    ensures forall k | 0 <= k < IdLength :: IsIdChar(MatchAt(s, i).value[k])
  {
    var m := MarkerAt(s, i).value;
    var id := MatchAt(s, i).value;
    assert forall k | 0 <= k < IdLength :: id[k] == s[i + m + k];
  }

  /** The first `Some` among `f(i)`, `f(i + 1)`, ..., `f(n)`: the regular
      expression engine trying each start position in turn. */
  function FirstSome<T>(f: nat -> Option<T>, i: nat, n: nat): Option<T>
    decreases n - i
  {
    if f(i).Some? then f(i)
    else if i >= n then None
    else FirstSome(f, i + 1, n)
  }

  lemma {:induction false} FirstSomeIsLeftmost<T>(f: nat -> Option<T>, i: nat, n: nat)
    requires i <= n
    ensures FirstSome(f, i, n).None? <==> forall j | i <= j <= n :: f(j).None?
    ensures FirstSome(f, i, n).Some? ==> exists j | i <= j <= n ::
      && FirstSome(f, i, n) == f(j)
      && forall k | i <= k < j :: f(k).None?
    decreases n - i
  {
    if f(i).None? && i < n {
      FirstSomeIsLeftmost(f, i + 1, n);
      if FirstSome(f, i + 1, n).Some? {
        var j :| i + 1 <= j <= n && FirstSome(f, i + 1, n) == f(j)
          && forall k | i + 1 <= k < j :: f(k).None?;
        assert forall k | i <= k < j :: f(k).None?;
      }
    }
  }

  function ThumbnailUrl(id: string): string {
    "https://img.youtube.com/vi/" + id + "/mqdefault.jpg"
  }

  /** `extractThumbnail`: the image of the first match, if there is one. */
  function ExtractThumbnail(s: string): Option<string> {
    var m := FirstSome((j: nat) => MatchAt(s, j), 0, |s|);
    if m.Some? then Some(ThumbnailUrl(m.value)) else None
  }

  /** The preview is the image of the eleven id characters after the
      leftmost marker they follow, and there is none when no marker is
      followed by eleven id characters. */
  lemma ExtractThumbnailSpec(s: string)
    ensures ExtractThumbnail(s).None? <==> forall j | 0 <= j <= |s| :: MatchAt(s, j).None?
    ensures ExtractThumbnail(s).Some? ==> exists j | 0 <= j <= |s| && MatchAt(s, j).Some? ::
      && ExtractThumbnail(s) == Some(ThumbnailUrl(MatchAt(s, j).value))
      && |MatchAt(s, j).value| == IdLength
      && (forall k | 0 <= k < IdLength :: IsIdChar(MatchAt(s, j).value[k]))
      && forall k | 0 <= k < j :: MatchAt(s, k).None?
  {
    var f := (j: nat) => MatchAt(s, j);
    FirstSomeIsLeftmost(f, 0, |s|);
    assert forall j :: f(j) == MatchAt(s, j);
    if ExtractThumbnail(s).Some? {
      var j :| 0 <= j <= |s| && FirstSome(f, 0, |s|) == f(j) && forall k | 0 <= k < j :: f(k).None?;
      MatchAtIsId(s, j);
    }
  }

  /** `thumbnail`: only a non-empty, valid link gets a preview. */
  function Thumbnail(value: string): (r: Option<string>)
    ensures r.Some? ==> value != "" && IsValidUrl(value)
    ensures value != "" && IsValidUrl(value) ==> r == ExtractThumbnail(value)
  {
    if value != "" && IsValidUrl(value) then ExtractThumbnail(value) else None
  }

  /** A valid link need not have a preview: `youtu.be/abc` has only three id
      characters. */
  lemma ValidWithoutThumbnail()
    ensures IsValidUrl("youtu.be/abc")
    ensures Thumbnail("youtu.be/abc") == None
  {
    var s := "youtu.be/abc";
    assert s[..0] == Schemes[0] && s[..0] == WwwPrefixes[0];
    StripSchemeExact(s, 0);
    StripWwwExact(s, 0);
    assert "youtu.be/" <= s;
    forall j | 0 <= j <= |s| ensures MatchAt(s, j).None? {
      var m := MarkerAt(s, j);
      if m.Some? {
        assert j + m.value + IdLength > |s|;
      }
    }
    ExtractThumbnailSpec(s);
  }
}
