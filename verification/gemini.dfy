/** The batch side of the Gemini client (gemini_service.py): the batch
    prompt, the split of one reply into per-video analyses by their
    "VIDEO i:" markers, and the batch upload. The SDK calls are parameters. */
module Gemini {
  import opened Wrappers
  import opened PyText
  import opened ReplyLayout

  // ---------------------------------------------------------------------
  // Markers

  /** The label that opens the analysis of video `i` in the reply. */
  function Marker(i: nat): string {
    Video + ShowNat(i) + ":"
  }

  const NotFound: string := "Analysis not found in batch response for video "

  /** What stands in for an analysis whose marker the reply lacks. */
  function Placeholder(i: nat): string {
    NotFound + ShowNat(i)
  }

  /** A marker starts with "VIDEO " and has no other 'V' in it. */
  lemma MarkerShape(i: nat)
    ensures |Marker(i)| > |Video| && Marker(i)[..|Video|] == Video
    ensures forall j :: 1 <= j < |Marker(i)| ==> Marker(i)[j] != 'V'
  {
    var m := Marker(i);
    forall j | 1 <= j < |m| ensures m[j] != 'V' {
      if j >= |Video| && j < |m| - 1 {
        assert m[j] == ShowNat(i)[j - |Video|];
      }
    }
  }

  /** The characters of a marker: "VIDEO ", then digits, then ':'. */
  lemma MarkerChar(i: nat, q: nat)
    requires q < |Marker(i)|
    ensures Marker(i)[q] == ':' <==> q == |Marker(i)| - 1
    ensures |Video| <= q < |Marker(i)| - 1 ==> Marker(i)[q] == ShowNat(i)[q - |Video|]
  {
    var d := ShowNat(i);
    assert q >= |Video| && q < |Marker(i)| - 1 ==> Marker(i)[q] == d[q - |Video|] && IsDigit(d[q - |Video|]);
  }

  /** No marker occurs at the start of a different marker: the digits of
      one would have to end where the other's go on. */
  lemma MarkerAtMarker(k: nat, z: string, i: nat)
    requires OccursAt(Marker(k) + z, Marker(i), 0)
    ensures i == k
  {
    var a := ShowNat(i);
    var b := ShowNat(k);
    var s := Marker(k) + z;
    var mi := Marker(i);
    var n := |Video|;
    assert s[..|mi|] == mi;
    var p := n + if |a| <= |b| then |a| else |b|;
    MarkerChar(i, p);
    MarkerChar(k, p);
    assert s[p] == mi[p] && s[p] == Marker(k)[p];
    assert a == mi[n..n + |a|] == s[n..n + |b|] == b;
    ShowNatInjective(i, k);
  }

  /** The "VIDEO i:" markers form a family the reply layout can be cut by. */
  lemma MarkersGood()
    ensures GoodMarkers(Marker)
  {
    forall i: nat ensures |Marker(i)| > |Video| && Marker(i)[..|Video|] == Video {
      MarkerShape(i);
    }
    forall i: nat, j: int | 1 <= j < |Marker(i)| ensures Marker(i)[j] != 'V' {
      MarkerShape(i);
    }
    forall i: nat, k: nat, z: string | OccursAt(Marker(k) + z, Marker(i), 0) ensures i == k {
      MarkerAtMarker(k, z, i);
    }
  }

  // ---------------------------------------------------------------------
  // Splitting the reply

  /** The split loop of `analyze_videos_batch_with_gemini`. */
  method SplitReply(text: string, n: nat) returns (analyses: seq<string>)
    ensures analyses == Entries(Marker, Placeholder, text, n, n)
  {
    analyses := [];
    var i := 1;
    while i <= n
      invariant 1 <= i <= n + 1
      invariant analyses == Entries(Marker, Placeholder, text, n, i - 1)
    {
      var entry := SplitEntry(text, n, i);
      analyses := analyses + [entry];
      i := i + 1;
    }
  }

  /** One pass of the split loop: the stripped text between "VIDEO i:" and
      "VIDEO i+1:" (or the end of the reply), or the placeholder when the
      reply lacks "VIDEO i:". */
  method SplitEntry(text: string, n: nat, i: nat) returns (entry: string)
    ensures entry == EntryWith(Marker, Placeholder, text, n, i)
  {
    var marker := Marker(i);
    var start := Find(text, marker);
    if start == -1 {
      entry := Placeholder(i);
    } else {
      var from := start + |marker|;
      var piece: string;
      if i < n {
        var end := Find(text, Marker(i + 1));
        piece := if end != -1 then Slice(text, from, end) else Slice(text, from, |text|);
      } else {
        piece := Slice(text, from, |text|);
      }
      assert CutWith(Marker, text, n, i) == Some(piece);
      entry := Strip(piece);
    }
  }

  /** A reply laid out as the prompt asks splits back into its analyses. */
  lemma BatchReplyRoundTrip(pre: string, bs: seq<string>)
    requires Free(pre) && forall k :: 0 <= k < |bs| ==> Free(bs[k])
    ensures forall k :: 0 <= k < |bs| ==>
      Entries(Marker, Placeholder, pre + Render(Marker, bs, 0), |bs|, |bs|)[k] == Strip(bs[k])
  {
    MarkersGood();
    SplitRoundTrip(Marker, Placeholder, pre, bs);
  }

  // ---------------------------------------------------------------------
  // The batch prompt

  /** What the prompt says about one video; an empty field stands for a
      missing or falsy one. */
  datatype VideoContext = VideoContext(brandName: string, adId: string)

  /** The label line of video `i`. */
  function LabelLine(i: nat, c: VideoContext): string {
    "VIDEO " + ShowNat(i)
    + (if c.brandName != "" then " (Brand: " + c.brandName + ")" else "")
    + (if c.adId != "" then " (Ad ID: " + c.adId + ")" else "")
    + ":\n"
  }

  /** A label line opens with the marker the split looks for exactly when
      the video has neither a brand nor an ad id: otherwise the reply must
      not echo the label if the split is to find it. */
  lemma LabelIsMarker(i: nat, c: VideoContext)
    ensures Marker(i) <= LabelLine(i, c) <==> c.brandName == "" && c.adId == ""
  {
    var m := Marker(i);
    var l := LabelLine(i, c);
    var q := |m| - 1;
    var lead := "VIDEO " + ShowNat(i);
    assert |lead| == q && l[..q] == lead;
    assert l[q] == if c.brandName != "" || c.adId != "" then ' ' else ':';
    assert m[q] == ':';
    assert c.brandName == "" && c.adId == "" ==> l == m + "\n";
  }

  /** The label block for `contexts`, videos numbered from 1. */
  function Labels(contexts: seq<VideoContext>): string {
    if contexts == [] then ""
    else Labels(contexts[..|contexts| - 1]) + LabelLine(|contexts|, contexts[|contexts| - 1])
  }

  const Intro: string := "Analyze the following "
  const Format: string := " Facebook ad videos. For each video, provide analysis following this format:\n\n"
  const Closing: string := "\n\nPlease analyze each video separately and clearly label each analysis as \"VIDEO 1:\", \"VIDEO 2:\", etc.\n\n"

  /** The fixed part of the batch prompt for `n` videos. */
  function Header(n: nat, template: string): string {
    Intro + ShowNat(n) + Format + template + Closing
  }

  /** The batch prompt: the header, then one label line per video. */
  method BuildPrompt(template: string, contexts: seq<VideoContext>) returns (prompt: string)
    ensures prompt == Header(|contexts|, template) + Labels(contexts)
  {
    prompt := Header(|contexts|, template);
    prompt := AppendLabels(prompt, contexts);
  }

  /** The loop that appends the label lines to the prompt. */
  method AppendLabels(start: string, contexts: seq<VideoContext>) returns (prompt: string)
    ensures prompt == start + Labels(contexts)
  {
    prompt := start;
    var i := 0;
    while i < |contexts|
      invariant 0 <= i <= |contexts|
      invariant prompt == start + Labels(contexts[..i])
    {
      assert contexts[..i + 1][..i] == contexts[..i];
      prompt := prompt + LabelLine(i + 1, contexts[i]);
      i := i + 1;
    }
    assert contexts[..i] == contexts;
  }

  /** One empty line per video. */
  function Blank(n: nat): (r: seq<string>)
    ensures |r| == n && forall k :: 0 <= k < n ==> r[k] == "\n"
  {
    seq(n, _ => "\n")
  }

  /** Without brands and ad ids the label block is the reply layout with an
      empty line for every analysis. */
  lemma {:induction false} PlainLabels(contexts: seq<VideoContext>)
    requires forall k :: 0 <= k < |contexts| ==> contexts[k] == VideoContext("", "")
    ensures Labels(contexts) == Render(Marker, Blank(|contexts|), 0)
  {
    if contexts != [] {
      var n := |contexts| - 1;
      PlainLabels(contexts[..n]);
      LabelIsMarker(n + 1, contexts[n]);
      assert Blank(n + 1) == Blank(n) + ["\n"];
      RenderAppend(Marker, Blank(n), "\n", 0);
    }
  }

  /** An empty line holds no "VIDEO " and strips to nothing. */
  lemma NewlineIsEmpty()
    ensures Free("\n") && Strip("\n") == ""
  {
    StripEmpty("\n");
    assert IsBlank("\n") by {
      assert IsSpace("\n"[0]);
    }
  }

  /** A reply that is only the markers, each on a line of its own, splits
      into empty analyses. */
  lemma BareMarkersSplitEmpty(n: nat)
    ensures forall k :: 0 <= k < n ==>
      Entries(Marker, Placeholder, Render(Marker, Blank(n), 0), n, n)[k] == ""
  {
    var bs := Blank(n);
    NewlineIsEmpty();
    assert Free("") && forall k :: 0 <= k < n ==> Free(bs[k]);
    BatchReplyRoundTrip("", bs);
    assert "" + Render(Marker, bs, 0) == Render(Marker, bs, 0);
  }

  /** A reply that merely echoes the label block of videos without brands
      or ad ids splits into empty analyses. */
  lemma EchoedLabelsSplitEmpty(contexts: seq<VideoContext>)
    requires forall k :: 0 <= k < |contexts| ==> contexts[k] == VideoContext("", "")
    ensures forall k :: 0 <= k < |contexts| ==>
      Entries(Marker, Placeholder, Labels(contexts), |contexts|, |contexts|)[k] == ""
  {
    PlainLabels(contexts);
    BareMarkersSplitEmpty(|contexts|);
  }

  // ---------------------------------------------------------------------
  // The batch call

  datatype AnalysisError =
    | MismatchedInputs   // no files, or not one context per file
    | GenerationFailed   // the SDK call raised
    | EmptyResponse      // the reply has no text

  /** `analyze_videos_batch_with_gemini`; `generate(prompt, files)` is the
      reply text, None where the SDK call raises. */
  method AnalyzeVideosBatch(files: seq<string>, template: string, contexts: seq<VideoContext>,
                            generate: (string, seq<string>) -> Option<string>)
    returns (r: Result<seq<string>, AnalysisError>)
    ensures (files == [] || |files| != |contexts|) ==> r == Failure(MismatchedInputs)
    ensures files != [] && |files| == |contexts| ==>
      var reply := generate(Header(|files|, template) + Labels(contexts), files);
      && (reply.None? ==> r == Failure(GenerationFailed))
      && (reply == Some("") ==> r == Failure(EmptyResponse))
      && (reply.Some? && reply.value != "" ==>
            r == Success(Entries(Marker, Placeholder, reply.value, |files|, |files|)))
  {
    if files == [] || |files| != |contexts| {
      return Failure(MismatchedInputs);
    }
    var prompt := BuildPrompt(template, contexts);
    var reply := generate(prompt, files);
    if reply.None? {
      return Failure(GenerationFailed);
    }
    if reply.value == "" {
      return Failure(EmptyResponse);
    }
    var analyses := SplitReply(reply.value, |files|);
    r := Success(analyses);
  }

  // ---------------------------------------------------------------------
  // The batch upload

  /** The files of the paths whose upload went through, in order;
      `upload(path)` is the processed file's name, None where the upload
      raised or processing ended in FAILED. */
  function Uploaded<P>(paths: seq<P>, upload: P -> Option<string>): seq<string> {
    if paths == [] then []
    else
      var done := Uploaded(paths[..|paths| - 1], upload);
      match upload(paths[|paths| - 1])
      case Some(f) => done + [f]
      case None => done
  }

  /** The uploaded files come from the paths in order, one per successful
      upload: none exactly when every upload failed, all of them exactly
      when none failed. */
  lemma {:induction false} UploadedSpec<P>(paths: seq<P>, upload: P -> Option<string>)
    ensures |Uploaded(paths, upload)| <= |paths|
    ensures Uploaded(paths, upload) == [] <==> forall i :: 0 <= i < |paths| ==> upload(paths[i]).None?
    ensures |Uploaded(paths, upload)| == |paths| <==> forall i :: 0 <= i < |paths| ==> upload(paths[i]).Some?
    ensures |Uploaded(paths, upload)| == |paths| ==>
      forall i :: 0 <= i < |paths| ==> Uploaded(paths, upload)[i] == upload(paths[i]).value
  {
    if paths != [] {
      var init := paths[..|paths| - 1];
      UploadedSpec(init, upload);
      assert forall i :: 0 <= i < |init| ==> init[i] == paths[i];
    }
  }

  /** `upload_videos_batch_to_gemini`: a partial failure is only logged;
      when every upload failed the batch raises, and the clean-up it runs
      then finds no uploaded file to delete. */
  method UploadBatch<P>(paths: seq<P>, upload: P -> Option<string>)
    returns (r: Result<seq<string>, string>)
    ensures r.Failure? <==> paths != [] && Uploaded(paths, upload) == []
    ensures r.Success? ==> r.value == Uploaded(paths, upload)
  {
    var uploaded: seq<string> := [];
    var failed := 0;
    var i := 0;
    while i < |paths|
      invariant 0 <= i <= |paths|
      invariant uploaded == Uploaded(paths[..i], upload)
      invariant failed == 0 <==> forall k :: 0 <= k < i ==> upload(paths[k]).Some?
    {
      assert paths[..i + 1][..i] == paths[..i];
      match upload(paths[i]) {
        case Some(f) => uploaded := uploaded + [f];
        case None => failed := failed + 1;
      }
      i := i + 1;
    }
    assert paths[..i] == paths;
    UploadedSpec(paths, upload);
    if failed > 0 && uploaded == [] {
      r := Failure("Some video uploads failed");
    } else {
      r := Success(uploaded);
    }
  }
}
