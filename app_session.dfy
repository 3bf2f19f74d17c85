/** The browser session: the style catalog, the uploaded-file check, the batch loop over
    the four styles, and the two flags (`selectedFile`, `isGenerating`) that the page
    updates. */
module AppSession {
  import opened Text
  import opened Js
  import opened Api
  import opened AppClient
  import opened AppRetry

  /** Largest accepted upload, in bytes. */
  const MaxFileSize := 12 * 1024 * 1024

  const NotAnImage := "Please upload an image file."
  const TooLarge := "Image is too large. Please use a file under 12 MB."
  const RenderFailed := "Could not load generated image."
  const AllDone := "Done. Compare and download your AI avatars."
  const GenerationFailed := "Generation failed. Check API key, quota, and network, then try again."
  const NetworkBlocked := "Network blocked request. Start a local server first (`ruby -run -e httpd . -p 3000`) and open http://localhost:3000/public/. If it still fails, switch API Region and use a public Reference Image URL."

  /** A catalog entry: its key (which names its canvas) and the label shown for it. */
  datatype Style = Style(key: string, title: string)

  /** The catalog, in the order the batch visits it. */
  const Styles: seq<Style> := [
    Style("corporate", "Corporate Studio"),
    Style("linkedin", "Modern LinkedIn"),
    Style("resume", "Minimal Resume"),
    Style("creative", "Creative Professional")
  ]

  /** The prompt each catalog style sends, found by its key (no other key has one). */
  function Prompt(style: Style): string {
    if style.key == "corporate" then
      "Professional corporate headshot. Preserve the same identity and face from the reference photo. Business formal attire, clean neutral studio background, realistic skin texture, balanced lighting, no text, no watermark."
    else if style.key == "linkedin" then
      "Modern LinkedIn profile photo. Preserve the same identity and face from the reference photo. Smart business-casual styling, subtle office blur background, approachable expression, realistic photo quality, no text, no watermark."
    else if style.key == "resume" then
      "Minimal resume-ready portrait. Preserve the same identity and face from the reference photo. Clean plain light-gray background, professional attire, centered crop, realistic and crisp, no text, no watermark."
    else if style.key == "creative" then
      "Creative but professional avatar. Preserve the same identity and face from the reference photo. Stylish business-appropriate outfit, subtle premium gradient background, soft cinematic light, realistic output, no text, no watermark."
    else ""
  }

  /** The four style keys are distinct, so each result names exactly one canvas. */
  lemma StyleKeysDistinct()
    ensures |Styles| == 4
    ensures forall i, j :: 0 <= i < j < |Styles| ==> Styles[i].key != Styles[j].key
  {
  }

  datatype File = File(name: string, mimeType: string, size: nat)

  /** `useFile`'s checks, type first: the alert shown, or None when the file is taken. */
  function FileRejection(file: File): (r: Option<string>)
    ensures r.None? <==> StartsWith(file.mimeType, "image/") && file.size <= MaxFileSize
    ensures !StartsWith(file.mimeType, "image/") ==> r == Some(NotAnImage)
    ensures StartsWith(file.mimeType, "image/") && file.size > MaxFileSize ==> r == Some(TooLarge)
  {
    if !StartsWith(file.mimeType, "image/") then Some(NotAnImage)
    else if file.size > MaxFileSize then Some(TooLarge)
    else None
  }

  /** What the network would answer on one attempt: the proxy fetch and the direct fetch. */
  datatype AttemptEnv = AttemptEnv(proxy: ProxyReply, direct: Reply)

  /** Everything the outside world decides for one style: its attempts, and whether the
      resulting image loads into the canvas. */
  datatype StyleEnv = StyleEnv(attempts: seq<AttemptEnv>, renders: bool)

  /** The outcome each attempt of a style would have. */
  function AttemptOutcomes(style: Style, imageReference: string, apiKey: string, apiBase: string,
                           attempts: seq<AttemptEnv>): (o: seq<Outcome>)
    ensures |o| == |attempts|
    ensures forall k :: 0 <= k < |attempts| ==>
              o[k] == RequestStyleAvatar(Prompt(style), imageReference, apiKey, apiBase, attempts[k].proxy, attempts[k].direct).outcome
  {
    seq(|attempts|, k requires 0 <= k < |attempts| =>
      RequestStyleAvatar(Prompt(style), imageReference, apiKey, apiBase, attempts[k].proxy, attempts[k].direct).outcome)
  }

  /** One style's result: the image drawn on its canvas, or its entry in `failures`. */
  datatype StyleResult = Rendered(key: string, image: Value) | Failed(key: string, entry: string)

  /** `String(styleErr.message || styleErr)`: an error with an empty message prints as `Error`. */
  function ErrorText(message: string): (r: string)
    ensures r != ""
    ensures message != "" ==> r == message
    ensures message == "" ==> r == "Error"
  {
    if message != "" then message else "Error"
  }

  /** A style whose request succeeded is drawn if its image loads; every other case
      becomes an entry `<label>: <reason>`, and the result keeps the style's key. */
  function StyleResultOf(style: Style, outcome: Outcome, renders: bool): (r: StyleResult)
    ensures r.key == style.key
    ensures r.Rendered? <==> outcome.Success? && renders
    ensures r.Rendered? ==> r.image == outcome.image
    ensures outcome.Failure? ==> r == Failed(style.key, style.title + ": " + ErrorText(outcome.message))
    ensures outcome.Success? && !renders ==> r == Failed(style.key, style.title + ": " + RenderFailed)
  {
    match outcome
    case Failure(m) => Failed(style.key, style.title + ": " + ErrorText(m))
    case Success(image) =>
      if renders then Rendered(style.key, image) else Failed(style.key, style.title + ": " + RenderFailed)
  }

  /** The result the batch produces for `style`, given what the world decides for it. */
  function StyleRun(style: Style, env: StyleEnv, imageReference: string, apiKey: string, apiBase: string): StyleResult
    requires |env.attempts| >= MaxAttempts
  {
    var outcomes := AttemptOutcomes(style, imageReference, apiKey, apiBase, env.attempts);
    StyleResultOf(style, Retry(outcomes).outcome, env.renders)
  }

  /** One environment per style, each able to answer every attempt the retry loop can make. */
  predicate EnvsFit(styles: seq<Style>, envs: seq<StyleEnv>) {
    |envs| == |styles| && forall i :: 0 <= i < |envs| ==> |envs[i].attempts| >= MaxAttempts
  }

  predicate WellFormed(envs: seq<StyleEnv>) {
    EnvsFit(Styles, envs)
  }

  /** The `failures` array a run of results leaves behind: one entry per failed style,
      in the order the styles were visited. */
  function FailureEntries(results: seq<StyleResult>): seq<string>
    decreases |results|
  {
    if results == [] then []
    else
      var last := results[|results| - 1];
      FailureEntries(results[..|results| - 1]) + (if last.Failed? then [last.entry] else [])
  }

  function CountFailed(results: seq<StyleResult>): nat
    decreases |results|
  {
    if results == [] then 0
    else CountFailed(results[..|results| - 1]) + (if results[|results| - 1].Failed? then 1 else 0)
  }

  /** `failures.length` is the number of styles that failed, never more than were visited. */
  lemma {:induction false} FailureCount(results: seq<StyleResult>)
    ensures |FailureEntries(results)| == CountFailed(results) <= |results|
    decreases |results|
  {
    if results != [] {
      FailureCount(results[..|results| - 1]);
    }
  }

  /** `failures` keeps catalog order: the entry of failed style `i` sits at the position
      given by the number of styles before it that failed. */
  lemma {:induction false} FailurePosition(results: seq<StyleResult>, i: nat)
    requires i < |results| && results[i].Failed?
    ensures CountFailed(results[..i]) < |FailureEntries(results)|
    ensures FailureEntries(results)[CountFailed(results[..i])] == results[i].entry
    decreases |results|
  {
    var n := |results| - 1;
    var init := results[..n];
    FailureCount(init);
    if i < n {
      assert init[..i] == results[..i];
      FailurePosition(init, i);
    } else {
      assert init == results[..i];
    }
  }

  /** A later failure never comes before an earlier one. */
  lemma {:induction false} CountFailedGrows(results: seq<StyleResult>, i: nat, j: nat)
    requires i < j <= |results| && results[i].Failed?
    ensures CountFailed(results[..i]) < CountFailed(results[..j])
    decreases j - i
  {
    if j == i + 1 {
      assert results[..j][..i] == results[..i];
    } else {
      CountFailedGrows(results, i, j - 1);
      assert results[..j][..j - 1] == results[..j - 1];
    }
  }

  /** Two failed styles keep their catalog order in `failures`. */
  lemma FailuresInOrder(results: seq<StyleResult>, i: nat, j: nat)
    requires i < j < |results| && results[i].Failed? && results[j].Failed?
    ensures var fs := FailureEntries(results);
            CountFailed(results[..i]) < CountFailed(results[..j]) < |fs|
            && fs[CountFailed(results[..i])] == results[i].entry
            && fs[CountFailed(results[..j])] == results[j].entry
  {
    FailurePosition(results, i);
    FailurePosition(results, j);
    CountFailedGrows(results, i, j);
  }

  /** No failures is the same as every style drawn. */
  lemma {:induction false} NoFailuresIffAllRendered(results: seq<StyleResult>)
    ensures FailureEntries(results) == [] <==> forall i :: 0 <= i < |results| ==> results[i].Rendered?
    decreases |results|
  {
    if results != [] {
      var init := results[..|results| - 1];
      NoFailuresIffAllRendered(init);
      FailureCount(init);
      if FailureEntries(results) == [] {
        forall i | 0 <= i < |results| ensures results[i].Rendered? {
          if i < |init| { assert results[i] == init[i]; }
        }
      }
    }
  }

  /** `Completed with N failed style(s).` or the all-done text: the all-done text exactly
      when nothing failed, and otherwise a text that gives the number of failures. */
  function CompletionStatus(failures: seq<string>): (r: string)
    ensures r == AllDone <==> failures == []
    ensures failures != [] ==> StartsWith(r, "Completed with ") && Contains(r, NatToString(|failures|))
  {
    if failures == [] then AllDone
    else
      var r := "Completed with " + NatToString(|failures|) + " failed style(s).";
      assert r[0] == 'C' && AllDone[0] == 'D';
      assert r[..15] == "Completed with ";
      ContainsAt(r, NatToString(|failures|), 15);
      r
  }

  /** The consolidated alert: shown exactly when something failed, and naming every
      failure. */
  function FailureNotice(failures: seq<string>): (r: Option<string>)
    ensures r.None? <==> failures == []
    ensures r.Some? ==> forall i :: 0 <= i < |failures| ==> Contains(r.value, failures[i])
  {
    if failures == [] then None
    else
      var text := "Some styles failed:\n- " + Join(failures, "\n- ");
      assert forall i :: 0 <= i < |failures| ==> Contains(text, failures[i]) by {
        forall i | 0 <= i < |failures| ensures Contains(text, failures[i]) {
          JoinContains(failures, "\n- ", i);
          ContainsInSuffix("Some styles failed:\n- ", Join(failures, "\n- "), failures[i]);
        }
      }
      Some(text)
  }

  /** The alert for an error that escaped the style loop: a network failure, in any letter
      case, is replaced by the advice to start a local server; any other message is shown
      as it is. */
  function FatalNotice(message: string): (r: string)
    ensures StartsWith(r, "AI generation failed: ")
    ensures Contains(Lower(message), "failed to fetch") || Contains(Lower(message), "load failed") ==>
              r == "AI generation failed: " + NetworkBlocked
    ensures !(Contains(Lower(message), "failed to fetch") || Contains(Lower(message), "load failed")) ==>
              r == "AI generation failed: " + message
  {
    var m := Lower(message);
    "AI generation failed: " + (if Contains(m, "failed to fetch") || Contains(m, "load failed") then NetworkBlocked else message)
  }

  datatype BatchReport =
    | Completed(results: seq<StyleResult>, failures: seq<string>, progress: seq<nat>, status: string, notice: Option<string>)
    | Aborted(status: string, alert: string)

  /** `FailureEntries` of one more result. */
  lemma FailureEntriesSnoc(results: seq<StyleResult>, r: StyleResult)
    ensures FailureEntries(results + [r]) == FailureEntries(results) + (if r.Failed? then [r.entry] else [])
  {
    assert (results + [r])[..|results|] == results;
  }

  /** `Math.round(((i + 1) / total) * 100)`, computed exactly: `100 * done / total`
      rounded half up. */
  function Percent(done: nat, total: nat): nat
    requires 0 < total
  {
    (done * 200 + total) / (2 * total)
  }

  /** `Percent` is the nearest whole percent, a half rounded up:
      `p - 1/2 <= 100 * done / total < p + 1/2`. */
  lemma PercentRounds(done: nat, total: nat)
    requires 0 < total
    ensures var p := Percent(done, total);
            p * total * 2 <= done * 200 + total < (p + 1) * total * 2
  {
  }

  /** The progress reported after each of the first `n` of `total` styles, in percent. */
  function Progress(n: nat, total: nat): seq<nat>
    requires 0 < total
  {
    seq(n, j requires 0 <= j < n => Percent(j + 1, total))
  }

  /** One more style done. */
  lemma ProgressSnoc(n: nat, total: nat)
    requires 0 < total
    ensures Progress(n + 1, total) == Progress(n, total) + [Percent(n + 1, total)]
  {
  }

  /** With four styles the batch reports a quarter of the way per style. */
  lemma ProgressSteps()
    ensures Progress(4, 4) == [25, 50, 75, 100]
  {
  }

  /** The progress step after style `i` (counted from 0) of `total`: the bar's new width,
      in percent, appended to the widths reported so far. */
  method ReportProgress(progress: seq<nat>, i: nat, total: nat) returns (next: seq<nat>)
    requires i < total && progress == Progress(i, total)
    ensures next == Progress(i + 1, total)
  {
    ProgressSnoc(i, total);
    next := progress + [Percent(i + 1, total)];
  }

  /** The body of the batch loop for one style: its request through the retry loop, then
      the image drawn or the failure recorded. */
  method RunStyle(style: Style, imageReference: string, apiKey: string, apiBase: string, env: StyleEnv)
      returns (result: StyleResult)
    requires |env.attempts| >= MaxAttempts
    ensures result == StyleRun(style, env, imageReference, apiKey, apiBase)
  {
    var outcomes := AttemptOutcomes(style, imageReference, apiKey, apiBase, env.attempts);
    var outcome, calls, waits := RequestStyleAvatarWithRetry(outcomes);
    result := StyleResultOf(style, outcome, env.renders);
  }

  /** One more style run, appended after the runs of the styles before it. */
  lemma RunsSnoc(styles: seq<Style>, envs: seq<StyleEnv>, imageReference: string, apiKey: string, apiBase: string,
                 results: seq<StyleResult>, result: StyleResult)
    requires |results| < |styles| && EnvsFit(styles, envs)
    requires forall j :: 0 <= j < |results| ==> results[j] == StyleRun(styles[j], envs[j], imageReference, apiKey, apiBase)
    requires result == StyleRun(styles[|results|], envs[|results|], imageReference, apiKey, apiBase)
    ensures forall j :: 0 <= j < |results| + 1 ==>
              (results + [result])[j] == StyleRun(styles[j], envs[j], imageReference, apiKey, apiBase)
  {
    forall j | 0 <= j < |results| + 1
      ensures (results + [result])[j] == StyleRun(styles[j], envs[j], imageReference, apiKey, apiBase)
    {
      if j < |results| {
        assert (results + [result])[j] == results[j];
      }
    }
  }

  /** The batch loop: every style in order, each through the retry loop, a failure
      recorded without stopping the batch, progress reported after each style. */
  method RunStyles(styles: seq<Style>, imageReference: string, apiKey: string, apiBase: string, envs: seq<StyleEnv>)
      returns (results: seq<StyleResult>, failures: seq<string>, progress: seq<nat>)
    requires 0 < |styles| && EnvsFit(styles, envs)
    ensures |results| == |styles|
    ensures forall i :: 0 <= i < |styles| ==> results[i] == StyleRun(styles[i], envs[i], imageReference, apiKey, apiBase)
    ensures failures == FailureEntries(results)
    ensures progress == Progress(|styles|, |styles|)
  {
    results, failures, progress := [], [], [];
    var i := 0;
    while i < |styles|
      invariant 0 <= i <= |styles|
      invariant |results| == i
      invariant forall j :: 0 <= j < i ==> results[j] == StyleRun(styles[j], envs[j], imageReference, apiKey, apiBase)
      invariant failures == FailureEntries(results)
      invariant progress == Progress(i, |styles|)
    {
      var result := RunStyle(styles[i], imageReference, apiKey, apiBase, envs[i]);
      FailureEntriesSnoc(results, result);
      RunsSnoc(styles, envs, imageReference, apiKey, apiBase, results, result);
      results := results + [result];
      if result.Failed? {
        failures := failures + [result.entry];
      }
      progress := ReportProgress(progress, i, |styles|);
      i := i + 1;
    }
  }

  /** The results of a whole catalog. */
  function CatalogResults(styles: seq<Style>, imageReference: string, apiKey: string, apiBase: string,
                          envs: seq<StyleEnv>): (rs: seq<StyleResult>)
    requires EnvsFit(styles, envs)
    ensures |rs| == |styles|
    ensures forall i :: 0 <= i < |styles| ==> rs[i] == StyleRun(styles[i], envs[i], imageReference, apiKey, apiBase)
  {
    seq(|styles|, i requires 0 <= i < |styles| => StyleRun(styles[i], envs[i], imageReference, apiKey, apiBase))
  }

  /** The batch over `styles` as a whole: aborted when the reference image cannot be read,
      otherwise the results, the failures, the progress, the closing status and the alert. */
  function ExpectedBatch(styles: seq<Style>, referenceUrl: string, fileRead: Result<string, string>,
                         apiKey: string, apiBase: string, envs: seq<StyleEnv>): BatchReport
    requires 0 < |styles| && EnvsFit(styles, envs)
  {
    if referenceUrl == "" && fileRead.Err? then Aborted(GenerationFailed, FatalNotice(fileRead.error))
    else
      var imageReference := if referenceUrl != "" then referenceUrl else fileRead.value;
      var results := CatalogResults(styles, imageReference, apiKey, apiBase, envs);
      var failures := FailureEntries(results);
      Completed(results, failures, Progress(|styles|, |styles|), CompletionStatus(failures), FailureNotice(failures))
  }

  /** The body of `generateAvatars` over the catalog `styles` (the page passes `Styles`).
      `referenceUrl` is the trimmed URL field; the file is read (with outcome `fileRead`)
      only when that field is empty. */
  method GenerateAvatars(styles: seq<Style>, referenceUrl: string, fileRead: Result<string, string>,
                         apiKey: string, apiBase: string, envs: seq<StyleEnv>) returns (report: BatchReport)
    requires 0 < |styles| && EnvsFit(styles, envs)
    ensures report == ExpectedBatch(styles, referenceUrl, fileRead, apiKey, apiBase, envs)
    ensures report.Completed? ==> |report.results| == |styles| && |report.failures| <= |styles|
  {
    var imageReference;
    if referenceUrl != "" {
      imageReference := referenceUrl;
    } else {
      match fileRead {
        case Err(message) =>
          return Aborted(GenerationFailed, FatalNotice(message));
        case Ok(dataUrl) =>
          imageReference := dataUrl;
      }
    }
    var results, failures, progress := RunStyles(styles, imageReference, apiKey, apiBase, envs);
    FailureCount(results);
    assert results == CatalogResults(styles, imageReference, apiKey, apiBase, envs);
    var status := CompletionStatus(failures);
    report := Completed(results, failures, progress, status, FailureNotice(failures));
  }

  /** The part of the page state the generation logic reads and writes. */
  class Session {
    var selectedFile: Option<File>
    var isGenerating: bool

    constructor ()
      ensures selectedFile == None && !isGenerating
    {
      selectedFile := None;
      isGenerating := false;
    }

    /** `updateGenerateAvailability`: the generate button is enabled. */
    predicate GenerateEnabled()
      reads this
      ensures GenerateEnabled() ==> selectedFile.Some?
      ensures isGenerating ==> !GenerateEnabled()
    {
      selectedFile.Some? && !isGenerating
    }

    /** `useFile`: a rejected file leaves the selection as it was. */
    method UseFile(file: File) returns (alert: Option<string>)
      modifies this
      ensures alert == FileRejection(file)
      ensures alert.None? ==> selectedFile == Some(file)
      ensures alert.Some? ==> selectedFile == old(selectedFile)
      ensures isGenerating == old(isGenerating)
    {
      alert := FileRejection(file);
      if alert.None? {
        selectedFile := Some(file);
      }
    }

    /** The generate button's handler: nothing happens without a file or while a batch
        runs; otherwise one batch runs with `isGenerating` set, and the flag is cleared
        however the batch ends. */
    method OnGenerate(referenceUrl: string, fileRead: Result<string, string>, apiKey: string, apiBase: string,
                      envs: seq<StyleEnv>) returns (report: Option<BatchReport>)
      requires WellFormed(envs)
      modifies this
      ensures !old(GenerateEnabled()) ==> report == None && selectedFile == old(selectedFile) && isGenerating == old(isGenerating)
      ensures old(GenerateEnabled()) ==> report == Some(ExpectedBatch(Styles, referenceUrl, fileRead, apiKey, apiBase, envs))
      ensures old(GenerateEnabled()) ==> selectedFile == old(selectedFile) && !isGenerating
    {
      if !GenerateEnabled() {
        return None;
      }
      isGenerating := true;
      var r := GenerateAvatars(Styles, referenceUrl, fileRead, apiKey, apiBase, envs);
      isGenerating := false;
      report := Some(r);
    }

    /** The reset button: no file, no batch running. */
    method Reset()
      modifies this
      ensures selectedFile == None && !isGenerating
    {
      selectedFile := None;
      isGenerating := false;
    }
  }

  /** The closing status is the all-done text exactly when no style failed, and the
      alert listing failures is shown exactly when one did. An unreadable reference image
      aborts the batch before any style is tried. */
  lemma BatchStatus(styles: seq<Style>, referenceUrl: string, fileRead: Result<string, string>,
                    apiKey: string, apiBase: string, envs: seq<StyleEnv>)
    requires 0 < |styles| && EnvsFit(styles, envs)
    ensures var b := ExpectedBatch(styles, referenceUrl, fileRead, apiKey, apiBase, envs);
            b.Aborted? <==> referenceUrl == "" && fileRead.Err?
    ensures var b := ExpectedBatch(styles, referenceUrl, fileRead, apiKey, apiBase, envs);
            b.Completed? ==>
              (b.status == AllDone <==> b.failures == []) && (b.notice.None? <==> b.failures == [])
              && |b.failures| == CountFailed(b.results) <= |styles|
  {
    var b := ExpectedBatch(styles, referenceUrl, fileRead, apiKey, apiBase, envs);
    if b.Completed? {
      FailureCount(b.results);
    }
  }

  /** A batch in which every style renders yields one image per style, with that style's
      key, in catalog order, and reports no failure. */
  lemma AllRenderedBatch(styles: seq<Style>, referenceUrl: string, fileRead: Result<string, string>,
                         apiKey: string, apiBase: string, envs: seq<StyleEnv>)
    requires 0 < |styles| && EnvsFit(styles, envs)
    requires ExpectedBatch(styles, referenceUrl, fileRead, apiKey, apiBase, envs).Completed?
    requires forall i :: 0 <= i < |styles| ==> ExpectedBatch(styles, referenceUrl, fileRead, apiKey, apiBase, envs).results[i].Rendered?
    ensures var b := ExpectedBatch(styles, referenceUrl, fileRead, apiKey, apiBase, envs);
            |b.results| == |styles| && (forall i :: 0 <= i < |styles| ==> b.results[i].key == styles[i].key)
            && b.failures == [] && b.status == AllDone && b.notice == None
  {
    var b := ExpectedBatch(styles, referenceUrl, fileRead, apiKey, apiBase, envs);
    NoFailuresIffAllRendered(b.results);
  }

  /** Whatever the catalog, a completed batch has one result per style, carrying that
      style's key, in catalog order, no more failures than styles, and one progress step
      per style. */
  lemma BatchShape(styles: seq<Style>, referenceUrl: string, fileRead: Result<string, string>,
                   apiKey: string, apiBase: string, envs: seq<StyleEnv>)
    requires 0 < |styles| && EnvsFit(styles, envs)
    ensures var b := ExpectedBatch(styles, referenceUrl, fileRead, apiKey, apiBase, envs);
            b.Completed? ==>
              |b.results| == |styles| && (forall i :: 0 <= i < |styles| ==> b.results[i].key == styles[i].key)
              && |b.failures| <= |styles| && b.progress == Progress(|styles|, |styles|)
  {
    var b := ExpectedBatch(styles, referenceUrl, fileRead, apiKey, apiBase, envs);
    if b.Completed? {
      FailureCount(b.results);
    }
  }

  /** The page's own batch: four results, one per distinct style key, at most four
      failures, and progress in quarters. */
  lemma CatalogBatch(referenceUrl: string, fileRead: Result<string, string>, apiKey: string, apiBase: string,
                     envs: seq<StyleEnv>)
    requires WellFormed(envs)
    ensures var b := ExpectedBatch(Styles, referenceUrl, fileRead, apiKey, apiBase, envs);
            b.Completed? ==>
              |b.results| == 4 && (forall i, j :: 0 <= i < j < 4 ==> b.results[i].key != b.results[j].key)
              && |b.failures| <= 4 && b.progress == [25, 50, 75, 100]
  {
    StyleKeysDistinct();
    ProgressSteps();
    BatchShape(Styles, referenceUrl, fileRead, apiKey, apiBase, envs);
  }
}
