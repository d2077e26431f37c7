/** The upload form (`src/components/VideoUpload.tsx`): its state, the tag
    editor, choosing a file (which may name the video after it), the submit
    guard, the simulated progress tick and the reset.

    Object URLs are parameters, and the timers are left out: a tick is one
    step of the interval's update function. */
module UploadForm {
  import opened Wrappers
  import Seqs
  import Text

  // ------------------------------------------------------------ state

  /** `UploadProgress.status`. */
  datatype Status = Idle | Uploading | Processing | Completed | Failed

  /** `UploadProgress` without its optional error text. */
  datatype Progress = Progress(progress: nat, status: Status)

  /** The name and MIME type of a chosen file. */
  datatype FileInfo = FileInfo(name: string, mimeType: string)

  /** The component's state (drag highlighting aside). */
  datatype Form = Form(
    file: Option<FileInfo>, videoPreview: Option<string>,
    title: string, description: string, category: string,
    tags: seq<string>, tagInput: string,
    thumbnail: Option<FileInfo>, thumbnailPreview: Option<string>,
    upload: Progress)

  const MaxTags: nat := 10
  const DefaultCategory: string := "skateboarding"

  /** The state on mount. */
  const Initial: Form := Form(None, None, "", "", DefaultCategory, [], "", None, None, Progress(0, Idle))

  // ------------------------------------------------------------ tags

  /** The tag list invariant: at most ten tags, pairwise distinct, each
      non-empty and trimmed. */
  predicate TagsValid(tags: seq<string>)
  {
    && |tags| <= MaxTags
    && Seqs.NoDuplicates(tags)
    && forall i :: 0 <= i < |tags| ==> tags[i] != "" && Text.IsTrimmed(tags[i])
  }

  /** `addTag`: the trimmed input is appended, and the input cleared,
      exactly when it is not blank, not already a tag, and there are fewer
      than ten tags; otherwise nothing changes. Either way the tag list
      invariant is kept. */
  function AddTag(f: Form): (r: Form)
    ensures Text.AllSpace(f.tagInput) ==> r == f
    ensures r == f || r == f.(tags := f.tags + [Text.Trim(f.tagInput)], tagInput := "")
    ensures r.tags != f.tags <==>
              !Text.AllSpace(f.tagInput) && Text.Trim(f.tagInput) !in f.tags && |f.tags| < MaxTags
    ensures TagsValid(f.tags) ==> TagsValid(r.tags)
  {
    var t := Text.Trim(f.tagInput);
    Text.TrimEmptyIff(f.tagInput);
    if t != "" && t !in f.tags && |f.tags| < MaxTags then
      AppendTagKeepsValid(f.tags, t);
      assert |f.tags + [t]| != |f.tags|;
      f.(tags := f.tags + [t], tagInput := "")
    else f
  }

  /** A new, non-empty, trimmed tag appended to fewer than ten keeps the
      tag list invariant. */
  lemma AppendTagKeepsValid(tags: seq<string>, t: string)
    requires t != "" && Text.IsTrimmed(t) && t !in tags && |tags| < MaxTags
    ensures TagsValid(tags) ==> TagsValid(tags + [t])
  {
    if TagsValid(tags) {
      var r := tags + [t];
      forall i, j | 0 <= i < j < |r| ensures r[i] != r[j] {
        if j == |tags| {
          assert r[i] in tags;
        }
      }
    }
  }

  /** `removeTag`: every occurrence of the tag is removed; the other tags
      keep their order. */
  function RemoveTag(f: Form, tag: string): (r: Form)
    ensures forall x :: x in r.tags <==> x in f.tags && x != tag
    ensures Seqs.IsSubsequence(r.tags, f.tags)
    ensures |r.tags| == |f.tags| - multiset(f.tags)[tag]
    ensures r == f.(tags := r.tags)
  {
    var tags := Seqs.Remove(f.tags, tag);
    Seqs.RemoveLength(f.tags, tag);
    assert forall x :: x in tags <==> x in f.tags && x != tag;
    f.(tags := tags)
  }

  /** Removing a tag keeps the tag list invariant. */
  lemma RemoveTagPreservesValid(f: Form, tag: string)
    requires TagsValid(f.tags)
    ensures TagsValid(RemoveTag(f, tag).tags)
  {
    var r := RemoveTag(f, tag).tags;
    forall i | 0 <= i < |r| ensures r[i] != "" && Text.IsTrimmed(r[i]) {
      assert r[i] in f.tags;
    }
  }

  /** Removing a tag just added restores the previous tag list. */
  lemma RemoveUndoesAdd(f: Form)
    requires var t := Text.Trim(f.tagInput); t != "" && t !in f.tags && |f.tags| < MaxTags
    ensures RemoveTag(AddTag(f), Text.Trim(f.tagInput)).tags == f.tags
  {
    Seqs.RemoveAppendLast(f.tags, Text.Trim(f.tagInput));
  }

  // ------------------------------------------------------------ choosing a file

  /** A `[^/.]+` run: non-empty, without `.` or `/`. */
  predicate IsExtension(ext: string)
  {
    |ext| > 0 && forall i :: 0 <= i < |ext| ==> ext[i] != '.' && ext[i] != '/'
  }

  /** The index of the last `.` of `s`, if any. */
  function LastDot(s: string): (r: Option<nat>)
    ensures r.Some? ==> r.value < |s| && s[r.value] == '.' && forall j :: r.value < j < |s| ==> s[j] != '.'
    ensures r.None? ==> forall j :: 0 <= j < |s| ==> s[j] != '.'
  {
    if |s| == 0 then None
    else if s[|s| - 1] == '.' then Some(|s| - 1)
    else LastDot(s[..|s| - 1])
  }

  /** `name.replace(/\.[^/.]+$/, "")`: a final `.ext` is cut off when `ext`
      is a non-empty run without `.` or `/`; otherwise the name is kept.
      The regular expression matches at a dot exactly when the text after
      it is such a run, and then the result is the text before that dot. */
  function StripExtension(name: string): (r: string)
    ensures forall i :: 0 <= i < |name| && name[i] == '.' && IsExtension(name[i + 1..]) ==> r == name[..i]
    ensures (forall i :: 0 <= i < |name| && name[i] == '.' ==> !IsExtension(name[i + 1..])) ==> r == name
  {
    match LastDot(name)
    case None => name
    case Some(k) =>
      if IsExtension(name[k + 1..]) then
        assert forall i :: 0 <= i < k && name[i] == '.' ==> !IsExtension(name[i + 1..]) by {
          forall i | 0 <= i < k && name[i] == '.' ensures !IsExtension(name[i + 1..]) {
            assert name[i + 1..][k - i - 1] == '.';
          }
        }
        name[..k]
      else
        assert forall i :: 0 <= i < k && name[i] == '.' ==> !IsExtension(name[i + 1..]) by {
          forall i | 0 <= i < k && name[i] == '.' ensures !IsExtension(name[i + 1..]) {
            assert name[i + 1..][k - i - 1] == '.';
          }
        }
        name
  }

  /** Round trip: a base name with an extension appended loses exactly that
      extension. */
  lemma StripAppendedExtension(base: string, ext: string)
    requires IsExtension(ext)
    ensures StripExtension(base + "." + ext) == base
  {
    var name := base + "." + ext;
    assert name[|base|] == '.' && name[|base| + 1..] == ext && name[..|base|] == base;
  }

  /** `a.b.mp4` loses only `.mp4`; `clip` has no extension and `clip.` an
      empty one, so both are kept. */
  lemma StripExtensionExamples()
    ensures StripExtension("a.b.mp4") == "a.b"
    ensures StripExtension("clip") == "clip"
    ensures StripExtension("clip.") == "clip."
  {
    StripAppendedExtension("a.b", "mp4");
    assert "a.b" + "." + "mp4" == "a.b.mp4";
    var c := "clip.";
    assert c[5..] == "";
    assert forall i :: 0 <= i < 4 ==> c[i] != '.';
  }

  /** `handleFileSelect`: a file whose MIME type starts with `video/` is
      chosen and previewed at `url`, and names the video after itself when
      the title is empty; any other file leaves the form unchanged. */
  function SelectFile(f: Form, file: FileInfo, url: string): (r: Form)
    ensures !Text.StartsWith(file.mimeType, "video/") ==> r == f
    ensures Text.StartsWith(file.mimeType, "video/") ==>
              && r.file == Some(file) && r.videoPreview == Some(url)
              && r.title == (if f.title == "" then StripExtension(file.name) else f.title)
              && r == f.(file := r.file, videoPreview := r.videoPreview, title := r.title)
  {
    if Text.StartsWith(file.mimeType, "video/") then
      f.(file := Some(file), videoPreview := Some(url),
         title := if f.title == "" then StripExtension(file.name) else f.title)
    else f
  }

  // ------------------------------------------------------------ submitting

  /** The start of `handleSubmit`: nothing happens without a file or with a
      blank title; otherwise the upload starts at 0%. */
  function Submit(f: Form): (r: Form)
    ensures f.file.None? || Text.AllSpace(f.title) ==> r == f
    ensures f.file.Some? && !Text.AllSpace(f.title) ==> r == f.(upload := Progress(0, Uploading))
  {
    Text.TrimEmptyIff(f.title);
    if f.file.None? || Text.Trim(f.title) == "" then f else f.(upload := Progress(0, Uploading))
  }

  /** One step of the progress interval: 10 more percent, or 100% and
      `processing` once 100 is reached. */
  function Tick(p: Progress): (r: Progress)
    ensures p.progress + 10 >= 100 ==> r == Progress(100, Processing)
    ensures p.progress + 10 < 100 ==> r.status == p.status && r.progress == p.progress + 10
  {
    var next := p.progress + 10;
    if next >= 100 then Progress(100, Processing) else p.(progress := next)
  }

  /** Up to `n` steps of the interval, which is cleared by the step that
      reaches `processing`. */
  function RunTicks(p: Progress, n: nat): Progress
    decreases n
  {
    if n == 0 then p
    else
      var q := Tick(p);
      if q.status == Processing then q else RunTicks(q, n - 1)
  }

  /** The progress shown during an upload is a multiple of 10 between 0 and
      100; a tick keeps it so. */
  lemma TickKeepsSteps(p: Progress)
    requires p.progress % 10 == 0 && p.progress <= 100
    ensures Tick(p).progress % 10 == 0 && Tick(p).progress <= 100
    ensures Tick(p).progress > p.progress || Tick(p).progress == 100
  {
  }

  /** From `10 * j` percent, `k` more ticks that stay below 100 add `10 * k`. */
  lemma {:induction false} RunTicksBelow(j: nat, k: nat)
    requires j + k <= 9
    ensures RunTicks(Progress(10 * j, Uploading), k) == Progress(10 * (j + k), Uploading)
    decreases k
  {
    if k > 0 {
      assert Tick(Progress(10 * j, Uploading)) == Progress(10 * (j + 1), Uploading);
      RunTicksBelow(j + 1, k - 1);
    }
  }

  /** From `10 * j` percent, enough ticks end at 100% and `processing`. */
  lemma {:induction false} RunTicksToEnd(j: nat, k: nat)
    requires j <= 9 && j + k >= 10
    ensures RunTicks(Progress(10 * j, Uploading), k) == Progress(100, Processing)
    decreases k
  {
    if j < 9 {
      assert Tick(Progress(10 * j, Uploading)) == Progress(10 * (j + 1), Uploading);
      RunTicksToEnd(j + 1, k - 1);
    }
  }

  /** An upload started at 0% shows `10 * k` percent after `k < 10` ticks
      and reaches 100% and `processing` at the tenth tick, after which the
      interval has stopped. */
  lemma UploadReachesProcessing(k: nat)
    ensures k < 10 ==> RunTicks(Progress(0, Uploading), k) == Progress(10 * k, Uploading)
    ensures k >= 10 ==> RunTicks(Progress(0, Uploading), k) == Progress(100, Processing)
  {
    if k < 10 {
      RunTicksBelow(0, k);
    } else {
      RunTicksToEnd(0, k);
    }
  }

  /** The step of the six-second timeout `handleSubmit` starts: the upload
      is shown complete at 100%; nothing else changes. */
  function Complete(f: Form): (r: Form)
    ensures r.upload.progress == 100 && r.upload.status == Completed
    ensures r == f.(upload := r.upload)
  {
    f.(upload := Progress(100, Completed))
  }

  // ------------------------------------------------------------ reset

  /** `resetForm`: every field back to its initial value: no file and no
      previews, empty title, description, tags and tag input, the
      skateboarding category, and an idle upload at 0%. */
  function Reset(f: Form): (r: Form)
    ensures r.file.None? && r.videoPreview.None? && r.thumbnail.None? && r.thumbnailPreview.None?
    ensures r.title == "" && r.description == "" && r.tags == [] && r.tagInput == ""
    ensures r.category == DefaultCategory && r.upload == Progress(0, Idle)
  {
    Initial
  }

  /** A form with a file and a title, submitted: it starts uploading at 0%;
      the interval's ten ticks, all due before the six-second timeout,
      bring it to 100% and `processing`; the timeout marks it complete with
      every other field as submitted; and the two-second timeout after
      that resets the form. */
  lemma UploadLifecycle(f: Form)
    requires f.file.Some? && !Text.AllSpace(f.title)
    ensures var s := Submit(f);
            var p := s.(upload := RunTicks(s.upload, 10));
            && s.upload == Progress(0, Uploading)
            && p.upload == Progress(100, Processing)
            && Complete(p) == f.(upload := Progress(100, Completed))
            && Reset(Complete(p)) == Initial
  {
    UploadReachesProcessing(10);
  }
}
