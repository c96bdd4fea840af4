/** The layout the batch analysis prompt asks the model to answer in:
    each video's analysis behind its own marker ("VIDEO 1:", "VIDEO 2:",
    ...). This module proves, for any family of markers that all start with
    "VIDEO " and can be told apart at their start, that cutting such a
    reply at the first occurrence of each marker recovers every analysis,
    provided no analysis itself contains "VIDEO ". */
module ReplyLayout {
  import opened Wrappers
  import opened PyText

  const Video: string := "VIDEO "

  /** A text in which no marker can begin. */
  predicate Free(s: string) {
    !Contains(s, Video)
  }

  /** Markers `mk(1)`, `mk(2)`, ... that start with "VIDEO ", hold no other
      'V', and of which none occurs at the start of another. */
  ghost predicate GoodMarkers(mk: nat -> string) {
    && (forall i: nat :: |mk(i)| > |Video| && mk(i)[..|Video|] == Video)
    && (forall i: nat, j: int :: 1 <= j < |mk(i)| ==> mk(i)[j] != 'V')
    && (forall i: nat, k: nat, z: string :: OccursAt(mk(k) + z, mk(i), 0) ==> i == k)
  }

  /** The cut for marker `i` out of `n`: from the end of the first
      occurrence of `mk(i)` to the first occurrence of `mk(i + 1)` (nothing
      when that comes earlier, the rest of the text when it is missing or
      `i` is the last); None when `mk(i)` does not occur. */
  function CutWith(mk: nat -> string, text: string, n: nat, i: nat): Option<string> {
    var start := Find(text, mk(i));
    if start == -1 then None
    else
      var from := start + |mk(i)|;
      if i < n then
        var end := Find(text, mk(i + 1));
        Some(if end != -1 then Slice(text, from, end) else Slice(text, from, |text|))
      else Some(Slice(text, from, |text|))
  }

  /** The analyses `bs[lo..]`, each behind its marker. */
  function Render(mk: nat -> string, bs: seq<string>, lo: nat): string
    decreases |bs| - lo
  {
    if lo >= |bs| then "" else mk(lo + 1) + bs[lo] + Render(mk, bs, lo + 1)
  }

  /** Where the marker of analysis `k` (0-based) starts in `Render(mk, bs, lo)`. */
  function Pos(mk: nat -> string, bs: seq<string>, lo: nat, k: nat): nat
    requires lo <= k <= |bs|
    decreases k - lo
  {
    if k == lo then 0 else |mk(lo + 1)| + |bs[lo]| + Pos(mk, bs, lo + 1, k)
  }

  /** `t` at `|a| + j` in `a + b` is `t` at `j` in `b`. */
  lemma OccursShift(a: string, b: string, t: string, j: nat)
    ensures OccursAt(a + b, t, |a| + j) <==> OccursAt(b, t, j)
  {
    if j + |t| <= |b| {
      assert (a + b)[|a| + j..|a| + j + |t|] == b[j..j + |t|];
    }
  }

  /** Where a marker occurs, "VIDEO " occurs. */
  lemma MarkerNeedsVideo(mk: nat -> string, s: string, i: nat, j: int)
    requires GoodMarkers(mk)
    requires OccursAt(s, mk(i), j)
    ensures OccursAt(s, Video, j)
  {
    assert s[j..j + |Video|] == s[j..j + |mk(i)|][..|Video|];
  }

  /** No "VIDEO " starts inside a marker past its first character. */
  lemma NoVideoInsideMarker(mk: nat -> string, k: nat, z: string, j: nat)
    requires GoodMarkers(mk)
    requires 1 <= j < |mk(k)|
    ensures !OccursAt(mk(k) + z, Video, j)
  {
    var s := mk(k) + z;
    assert s[j] == mk(k)[j];
    assert j + |Video| <= |s| ==> s[j..j + |Video|][0] == s[j];
  }

  /** A marker-free text followed by nothing or by a marker: no "VIDEO "
      starts within the text, not even one running into what follows. */
  lemma NoVideoInFree(x: string, y: string, j: nat)
    requires Free(x) && (y == [] || y[0] == 'V')
    requires j < |x|
    ensures !OccursAt(x + y, Video, j)
  {
    var s := x + y;
    if j + |Video| <= |x| {
      assert x[j..j + |Video|] == s[j..j + |Video|];
      assert !OccursAt(x, Video, j);
    } else {
      var d := |x| - j;
      assert Video[d] != 'V';
      assert j + |Video| <= |s| ==> s[j..j + |Video|][d] == s[|x|] == y[0];
    }
  }

  /** A marker-free text followed by a marker hides no marker. */
  lemma NoMarkerInFree(mk: nat -> string, x: string, y: string, i: nat, j: nat)
    requires GoodMarkers(mk)
    requires Free(x) && y != [] && y[0] == 'V'
    requires j < |x|
    ensures !OccursAt(x + y, mk(i), j)
  {
    NoVideoInFree(x, y, j);
    if OccursAt(x + y, mk(i), j) {
      MarkerNeedsVideo(mk, x + y, i, j);
    }
  }

  /** Past the first `k - lo` analyses the rendering goes on with the rest. */
  lemma {:induction false} RenderSuffix(mk: nat -> string, bs: seq<string>, lo: nat, k: nat)
    requires lo <= k <= |bs|
    ensures Pos(mk, bs, lo, k) <= |Render(mk, bs, lo)|
    ensures Render(mk, bs, lo)[Pos(mk, bs, lo, k)..] == Render(mk, bs, k)
    decreases k - lo
  {
    if k > lo {
      RenderSuffix(mk, bs, lo + 1, k);
      var head := mk(lo + 1) + bs[lo];
      assert Render(mk, bs, lo) == head + Render(mk, bs, lo + 1);
      assert Render(mk, bs, lo)[Pos(mk, bs, lo, k)..] == Render(mk, bs, lo + 1)[Pos(mk, bs, lo + 1, k)..];
    }
  }

  /** Past the marker of analysis `k` come that analysis and the rest. */
  lemma {:induction false} PosStep(mk: nat -> string, bs: seq<string>, lo: nat, k: nat)
    requires lo <= k < |bs|
    ensures Pos(mk, bs, lo, k + 1) == Pos(mk, bs, lo, k) + |mk(k + 1)| + |bs[k]|
    decreases k - lo
  {
    if k > lo {
      PosStep(mk, bs, lo + 1, k);
    }
  }

  /** A non-empty rendering starts with its first marker, and so with 'V'. */
  lemma RenderHead(mk: nat -> string, bs: seq<string>, lo: nat)
    requires GoodMarkers(mk)
    requires lo < |bs|
    ensures OccursAt(Render(mk, bs, lo), mk(lo + 1), 0)
    ensures Render(mk, bs, lo) != [] && Render(mk, bs, lo)[0] == 'V'
  {
    var m := mk(lo + 1);
    assert m[..|Video|] == Video;
    assert Render(mk, bs, lo) == m + (bs[lo] + Render(mk, bs, lo + 1));
    assert Render(mk, bs, lo)[..|m|] == m;
    assert Render(mk, bs, lo)[0] == m[0] == Video[0];
  }

  /** A marker followed by a marker-free analysis and then another marker
      holds no other marker before that next one. */
  lemma HeadHidesMarker(mk: nat -> string, h: nat, b: string, rest: string, i: nat, j: nat)
    requires GoodMarkers(mk)
    requires Free(b) && rest != [] && rest[0] == 'V'
    requires i != h && j < |mk(h)| + |b|
    ensures !OccursAt(mk(h) + b + rest, mk(i), j)
  {
    var m := mk(h);
    var s := m + b + rest;
    assert s == m + (b + rest);
    if j == 0 {
      assert !OccursAt(m + (b + rest), mk(i), 0);
    } else if j < |m| {
      NoVideoInsideMarker(mk, h, b + rest, j);
      if OccursAt(s, mk(i), j) {
        MarkerNeedsVideo(mk, s, i, j);
      }
    } else {
      NoMarkerInFree(mk, b, rest, i, j - |m|);
      OccursShift(m, b + rest, mk(i), j - |m|);
    }
  }

  /** With marker-free analyses, the first occurrence of the marker of
      video `i` in `Render(mk, bs, lo)` is the one placed for it. */
  lemma {:induction false} MarkerFirstAt(mk: nat -> string, bs: seq<string>, lo: nat, i: nat)
    requires GoodMarkers(mk)
    requires forall k :: 0 <= k < |bs| ==> Free(bs[k])
    requires lo < i <= |bs|
    ensures OccursAt(Render(mk, bs, lo), mk(i), Pos(mk, bs, lo, i - 1))
    ensures forall j :: 0 <= j < Pos(mk, bs, lo, i - 1) ==> !OccursAt(Render(mk, bs, lo), mk(i), j)
    decreases |bs| - lo
  {
    var m := mk(lo + 1);
    var s := Render(mk, bs, lo);
    if i == lo + 1 {
      assert OccursAt(s, mk(i), 0) by {
        RenderHead(mk, bs, lo);
      }
    } else {
      MarkerFirstAt(mk, bs, lo + 1, i);
      var rest := Render(mk, bs, lo + 1);
      var skip := |m| + |bs[lo]|;
      assert s == (m + bs[lo]) + rest;
      assert OccursAt(s, mk(i), Pos(mk, bs, lo, i - 1)) by {
        OccursShift(m + bs[lo], rest, mk(i), Pos(mk, bs, lo + 1, i - 1));
      }
      assert rest != [] && rest[0] == 'V' by {
        RenderHead(mk, bs, lo + 1);
      }
      forall j | 0 <= j < Pos(mk, bs, lo, i - 1)
        ensures !OccursAt(s, mk(i), j)
      {
        if j < skip {
          HeadHidesMarker(mk, lo + 1, bs[lo], rest, i, j);
        } else {
          OccursShift(m + bs[lo], rest, mk(i), j - skip);
        }
      }
    }
  }

  /** `t` first occurs in `s` at `p`. */
  predicate FirstAt(s: string, t: string, p: nat) {
    OccursAt(s, t, p) && forall j :: 0 <= j < p ==> !OccursAt(s, t, j)
  }

  /** An occurrence with none before it is what `find` returns. */
  lemma FirstOccurrence(s: string, t: string, p: nat)
    requires FirstAt(s, t, p)
    ensures Find(s, t) == p
  {
    FindSpec(s, t);
    assert Contains(s, t);
  }

  /** Without its marker there is nothing to cut. */
  lemma CutMissing(mk: nat -> string, text: string, n: nat, i: nat)
    requires !Contains(text, mk(i))
    ensures CutWith(mk, text, n, i) == None
  {
    FindSpec(text, mk(i));
  }

  /** With both markers present, the cut runs from the end of the first
      occurrence of marker `i` to the first occurrence of marker `i + 1`,
      and is empty when the latter comes first. */
  lemma CutToNext(mk: nat -> string, text: string, n: nat, i: nat, p: nat, q: nat)
    requires i < n
    requires FirstAt(text, mk(i), p) && FirstAt(text, mk(i + 1), q)
    ensures CutWith(mk, text, n, i) == Some(if p + |mk(i)| <= q then text[p + |mk(i)|..q] else "")
  {
    FirstOccurrence(text, mk(i), p);
    FirstOccurrence(text, mk(i + 1), q);
  }

  /** For the last marker, or when the next marker is missing, the cut
      runs to the end of the text. */
  lemma CutToEnd(mk: nat -> string, text: string, n: nat, i: nat, p: nat)
    requires FirstAt(text, mk(i), p)
    requires i >= n || !Contains(text, mk(i + 1))
    ensures CutWith(mk, text, n, i) == Some(text[p + |mk(i)|..])
  {
    FirstOccurrence(text, mk(i), p);
    FindSpec(text, mk(i + 1));
    assert text[p + |mk(i)|..] == text[p + |mk(i)|..|text|];
  }

  /** Behind a marker-free preamble the marker of video `i` is where it
      was placed, and nowhere before. */
  lemma MarkerFirstInReply(mk: nat -> string, pre: string, bs: seq<string>, i: nat)
    requires GoodMarkers(mk)
    requires Free(pre) && forall k :: 0 <= k < |bs| ==> Free(bs[k])
    requires 1 <= i <= |bs|
    ensures OccursAt(pre + Render(mk, bs, 0), mk(i), |pre| + Pos(mk, bs, 0, i - 1))
    ensures forall j :: 0 <= j < |pre| + Pos(mk, bs, 0, i - 1) ==> !OccursAt(pre + Render(mk, bs, 0), mk(i), j)
  {
    var r := Render(mk, bs, 0);
    var p := Pos(mk, bs, 0, i - 1);
    MarkerFirstAt(mk, bs, 0, i);
    OccursShift(pre, r, mk(i), p);
    RenderHead(mk, bs, 0);
    forall j | 0 <= j < |pre| + p
      ensures !OccursAt(pre + r, mk(i), j)
    {
      if j < |pre| {
        NoMarkerInFree(mk, pre, r, i, j);
      } else {
        OccursShift(pre, r, mk(i), j - |pre|);
      }
    }
  }

  /** In a reply laid out as asked, `find` locates the marker of analysis
      `k` (0-based) where it was placed. */
  lemma FindMarker(mk: nat -> string, pre: string, bs: seq<string>, k: nat)
    requires GoodMarkers(mk)
    requires Free(pre) && forall k :: 0 <= k < |bs| ==> Free(bs[k])
    requires k < |bs|
    ensures Find(pre + Render(mk, bs, 0), mk(k + 1)) == |pre| + Pos(mk, bs, 0, k)
  {
    var i := k + 1;
    MarkerFirstInReply(mk, pre, bs, i);
    assert i - 1 == k;
    FirstOccurrence(pre + Render(mk, bs, 0), mk(i), |pre| + Pos(mk, bs, 0, k));
  }

  /** Past the marker of analysis `k` come the analysis and the rest. */
  lemma AfterMarker(mk: nat -> string, pre: string, bs: seq<string>, k: nat)
    requires k < |bs|
    ensures var from := |pre| + Pos(mk, bs, 0, k) + |mk(k + 1)|;
      && from + |bs[k]| <= |pre + Render(mk, bs, 0)|
      && (pre + Render(mk, bs, 0))[from..from + |bs[k]|] == bs[k]
      && (k + 1 == |bs| ==> from + |bs[k]| == |pre + Render(mk, bs, 0)|)
  {
    var r := Render(mk, bs, 0);
    var p := Pos(mk, bs, 0, k);
    RenderSuffix(mk, bs, 0, k);
    var rest := Render(mk, bs, k + 1);
    assert Render(mk, bs, k) == mk(k + 1) + bs[k] + rest;
    assert (pre + r)[|pre| + p..] == r[p..];
    var from := |pre| + p + |mk(k + 1)|;
    assert (pre + r)[from..] == bs[k] + rest;
    assert (pre + r)[from..from + |bs[k]|] == (bs[k] + rest)[..|bs[k]|];
  }

  /** The cut for the marker of analysis `k` (0-based) out of a reply laid
      out as asked is exactly that analysis. */
  lemma CutRoundTrip(mk: nat -> string, pre: string, bs: seq<string>, k: nat)
    requires GoodMarkers(mk)
    requires Free(pre) && forall k :: 0 <= k < |bs| ==> Free(bs[k])
    requires k < |bs|
    ensures CutWith(mk, pre + Render(mk, bs, 0), |bs|, k + 1) == Some(bs[k])
  {
    FindMarker(mk, pre, bs, k);
    if k + 1 < |bs| {
      FindMarker(mk, pre, bs, k + 1);
    }
    CutAtMarkers(mk, pre, bs, k);
  }

  /** Once both markers around analysis `k` are where `find` looks, the cut
      is that analysis. */
  lemma CutAtMarkers(mk: nat -> string, pre: string, bs: seq<string>, k: nat)
    requires k < |bs|
    requires Find(pre + Render(mk, bs, 0), mk(k + 1)) == |pre| + Pos(mk, bs, 0, k)
    requires k + 1 < |bs| ==> Find(pre + Render(mk, bs, 0), mk(k + 1 + 1)) == |pre| + Pos(mk, bs, 0, k + 1)
    ensures CutWith(mk, pre + Render(mk, bs, 0), |bs|, k + 1) == Some(bs[k])
  {
    AfterMarker(mk, pre, bs, k);
    if k + 1 < |bs| {
      PosStep(mk, bs, 0, k);
    }
    CutOf(mk, pre + Render(mk, bs, 0), |bs|, k + 1, |pre| + Pos(mk, bs, 0, k), bs[k]);
  }

  /** The cut is the text between the end of marker `i` and the start of
      marker `i + 1`, or the end of the text for the last marker. */
  lemma CutOf(mk: nat -> string, text: string, n: nat, i: nat, start: nat, b: string)
    requires Find(text, mk(i)) == start
    requires start + |mk(i)| + |b| <= |text|
    requires text[start + |mk(i)|..start + |mk(i)| + |b|] == b
    requires i < n ==> Find(text, mk(i + 1)) == start + |mk(i)| + |b|
    requires i >= n ==> start + |mk(i)| + |b| == |text|
    ensures CutWith(mk, text, n, i) == Some(b)
  {
    var from := start + |mk(i)|;
    if i >= n {
      assert text[from..] == text[from..from + |b|];
    }
  }

  /** Appending one analysis appends its marker and the analysis. */
  lemma {:induction false} RenderAppend(mk: nat -> string, bs: seq<string>, b: string, lo: nat)
    requires lo <= |bs|
    ensures Render(mk, bs + [b], lo) == Render(mk, bs, lo) + mk(|bs| + 1) + b
    decreases |bs| - lo
  {
    if lo < |bs| {
      RenderAppend(mk, bs, b, lo + 1);
      assert (bs + [b])[lo] == bs[lo];
    } else {
      assert Render(mk, bs + [b], lo + 1) == "";
    }
  }

  /** The analysis of video `i` (1-based) out of `n`: the cut, stripped,
      or the placeholder `ph(i)` when marker `i` is missing. */
  function EntryWith(mk: nat -> string, ph: nat -> string, text: string, n: nat, i: nat): string {
    match CutWith(mk, text, n, i)
    case None => ph(i)
    case Some(piece) => Strip(piece)
  }

  /** The analyses of videos 1 to `m`, in order. */
  function Entries(mk: nat -> string, ph: nat -> string, text: string, n: nat, m: nat): (r: seq<string>)
    ensures |r| == m
  {
    if m == 0 then [] else Entries(mk, ph, text, n, m - 1) + [EntryWith(mk, ph, text, n, m)]
  }

  /** The `k`-th analysis (0-based) is the one for video `i == k + 1`. */
  lemma {:induction false} EntriesAt(mk: nat -> string, ph: nat -> string, text: string, n: nat, m: nat, k: nat, i: nat)
    requires k < m && i == k + 1
    ensures Entries(mk, ph, text, n, m)[k] == EntryWith(mk, ph, text, n, i)
  {
    var prev := Entries(mk, ph, text, n, m - 1);
    var last := EntryWith(mk, ph, text, n, m);
    assert Entries(mk, ph, text, n, m) == prev + [last];
    if k < m - 1 {
      EntriesAt(mk, ph, text, n, m - 1, k, i);
      assert (prev + [last])[k] == prev[k];
    } else {
      assert (prev + [last])[k] == last;
    }
  }

  /** What is cut for video `i`, stripped, is its analysis. */
  lemma EntryOfCut(mk: nat -> string, ph: nat -> string, text: string, n: nat, i: nat, piece: string)
    requires 1 <= i <= n
    requires CutWith(mk, text, n, i) == Some(piece)
    ensures Entries(mk, ph, text, n, n)[i - 1] == Strip(piece)
  {
    EntriesAt(mk, ph, text, n, n, i - 1, i);
  }

  /** A video whose marker the reply lacks gets its placeholder. */
  lemma EntryMissing(mk: nat -> string, ph: nat -> string, text: string, n: nat, i: nat)
    requires 1 <= i <= n
    requires !Contains(text, mk(i))
    ensures Entries(mk, ph, text, n, n)[i - 1] == ph(i)
  {
    EntriesAt(mk, ph, text, n, n, i - 1, i);
    CutMissing(mk, text, n, i);
  }

  /** Where both its marker and the next one occur, the analysis of video
      `i` is the stripped text between their first occurrences, and empty
      when the next marker comes first. */
  lemma EntryToNext(mk: nat -> string, ph: nat -> string, text: string, n: nat, i: nat, p: nat, q: nat)
    requires 1 <= i < n
    requires FirstAt(text, mk(i), p) && FirstAt(text, mk(i + 1), q)
    ensures p + |mk(i)| <= q ==> Entries(mk, ph, text, n, n)[i - 1] == Strip(text[p + |mk(i)|..q])
    ensures q < p + |mk(i)| ==> Entries(mk, ph, text, n, n)[i - 1] == ""
  {
    CutToNext(mk, text, n, i, p, q);
    EntryOfCut(mk, ph, text, n, i, if p + |mk(i)| <= q then text[p + |mk(i)|..q] else "");
    StripSlice("");
  }

  /** The analysis of the last video, or of one whose next marker is
      missing, runs from its marker to the end of the reply. */
  lemma EntryToEnd(mk: nat -> string, ph: nat -> string, text: string, n: nat, i: nat, p: nat)
    requires 1 <= i <= n
    requires FirstAt(text, mk(i), p)
    requires i == n || !Contains(text, mk(i + 1))
    ensures Entries(mk, ph, text, n, n)[i - 1] == Strip(text[p + |mk(i)|..])
  {
    CutToEnd(mk, text, n, i, p);
    EntryOfCut(mk, ph, text, n, i, text[p + |mk(i)|..]);
  }

  /** Splitting a reply laid out as asked (a marker-free preamble, then
      each marker-free analysis behind its marker) gives back every
      analysis, stripped of surrounding whitespace. */
  lemma SplitRoundTrip(mk: nat -> string, ph: nat -> string, pre: string, bs: seq<string>)
    requires GoodMarkers(mk)
    requires Free(pre) && forall k :: 0 <= k < |bs| ==> Free(bs[k])
    ensures forall k :: 0 <= k < |bs| ==>
      Entries(mk, ph, pre + Render(mk, bs, 0), |bs|, |bs|)[k] == Strip(bs[k])
  {
    var text := pre + Render(mk, bs, 0);
    forall k | 0 <= k < |bs| ensures Entries(mk, ph, text, |bs|, |bs|)[k] == Strip(bs[k]) {
      EntriesAt(mk, ph, text, |bs|, |bs|, k, k + 1);
      CutRoundTrip(mk, pre, bs, k);
    }
  }
}
