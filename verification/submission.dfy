/** Project submission (`Submission`): files, the upload loop and the version history. */
module Submission {
  import opened Text

  /** A chosen file; only its name and size are ever read. */
  datatype FileRef = FileRef(name: string, sizeBytes: nat)

  datatype Form = Form(projectName: string, tagline: string, description: string,
                       githubUrl: string, demoUrl: string, videoUrl: string, technologies: string)

  const EmptyForm := Form("", "", "", "", "", "", "")

  /** One line of the submission history. */
  datatype Entry = Entry(id: nat, version: string, projectName: string, submittedAt: string, status: string)

  /**
   * The page. `captured` is the form as it stood when Submit was last
   * accepted: the running `handleSubmit` closed over it, so edits typed during
   * the upload do not reach the entry it records.
   */
  datatype Page = Page(isSubmitting: bool, uploadProgress: int, files: seq<FileRef>,
                       form: Form, captured: Form, submissions: seq<Entry>)

  const SeedEntry := Entry(1, "v1.0", "AI Code Reviewer", "2025-03-15 14:30", "submitted")

  const InitialPage := Page(false, 0, [], EmptyForm, EmptyForm, [SeedEntry])

  const SuccessToast := "Project submitted successfully!"

  /** `v1.<n>`: the label of the submission made when the history held `n` entries. */
  function VersionLabel(minor: nat): (v: string)
    ensures |v| > 3 && v[..3] == "v1."
  {
    "v1." + Decimal(minor)
  }

  /** Different minor numbers give different labels. */
  lemma VersionLabelInjective(m: nat, n: nat)
    requires VersionLabel(m) == VersionLabel(n)
    ensures m == n
  {
    assert VersionLabel(m)[3..] == Decimal(m);
    assert VersionLabel(n)[3..] == Decimal(n);
    DecimalInjective(m, n);
  }

  /** `handleFileChange`: newly chosen files go after the ones already listed. */
  function AddFiles(files: seq<FileRef>, selected: seq<FileRef>): (r: seq<FileRef>)
    ensures |r| == |files| + |selected|
    ensures r[..|files|] == files && r[|files|..] == selected
  {
    files + selected
  }

  /**
   * `removeFile`: drops the file at `index`, walking the list as the index
   * filter does; an index outside the list removes nothing.
   */
  method RemoveFile(files: seq<FileRef>, index: int) returns (r: seq<FileRef>)
    ensures 0 <= index < |files| ==> r == files[..index] + files[index + 1..]
    ensures !(0 <= index < |files|) ==> r == files
  {
    r := [];
    var i := 0;
    while i < |files|
      invariant 0 <= i <= |files|
      invariant 0 <= index < i ==> r == files[..index] + files[index + 1..i]
      invariant !(0 <= index < i) ==> r == files[..i]
    {
      if i != index {
        r := r + [files[i]];
      }
      i := i + 1;
    }
    assert files[..|files|] == files;
  }

  /** The fields marked required must be non-empty before the browser lets the form submit. */
  predicate RequiredFilled(f: Form) {
    f.projectName != "" && f.description != "" && f.githubUrl != ""
  }

  /**
   * Pressing Submit: refused while a submission runs (the button is disabled)
   * or a required field is empty; otherwise the upload starts with the form as
   * it is now.
   */
  function StartSubmit(p: Page): (r: Page)
    ensures r.isSubmitting <==> p.isSubmitting || RequiredFilled(p.form)
    ensures p.isSubmitting || !RequiredFilled(p.form) ==> r == p
    ensures !p.isSubmitting && RequiredFilled(p.form) ==> r.captured == p.form
    ensures r.submissions == p.submissions && r.files == p.files && r.form == p.form
  {
    if p.isSubmitting || !RequiredFilled(p.form) then p else p.(isSubmitting := true, captured := p.form)
  }

  /** The text inputs stay editable during the upload; any run of their change handlers gives some form. */
  function EditForm(p: Page, f: Form): (r: Page)
    ensures r.form == f && r == p.(form := f)
  {
    p.(form := f)
  }

  /** The progress values the upload loop shows: 0, 10, ..., 100. */
  method ProgressSteps() returns (steps: seq<int>)
    ensures |steps| == 11
    ensures forall k :: 0 <= k < |steps| ==> steps[k] == 10 * k
    ensures steps[0] == 0 && steps[10] == 100
  {
    steps := [];
    var i := 0;
    while i <= 100
      invariant 0 <= i <= 110 && i % 10 == 0
      invariant |steps| == i / 10
      invariant forall k :: 0 <= k < |steps| ==> steps[k] == 10 * k
    {
      steps := steps + [i];
      i := i + 10;
    }
  }

  /** The entry recorded by a submission made while the history holds `subs`. */
  function NewEntry(subs: seq<Entry>, projectName: string, now: string): (e: Entry)
    ensures e.id == |subs| + 1 && e.version == VersionLabel(|subs|)
    ensures e.projectName == projectName && e.submittedAt == now && e.status == "submitted"
  {
    Entry(|subs| + 1, VersionLabel(|subs|), projectName, now, "submitted")
  }

  /**
   * The end of `handleSubmit`: the new entry, named from the form captured when
   * Submit was pressed, goes on top of the history; the progress bar resets,
   * and the form and files stay as they are. `now` is the host's clock,
   * already formatted. The history cannot change during the upload, so its
   * length at the end is the one the handler captured.
   */
  function FinishSubmit(p: Page, now: string): (r: (Page, string))
    requires p.isSubmitting
    ensures |r.0.submissions| == |p.submissions| + 1
    ensures r.0.submissions[1..] == p.submissions
    ensures r.0.submissions[0] == NewEntry(p.submissions, p.captured.projectName, now)
    ensures !r.0.isSubmitting && r.0.uploadProgress == 0
    ensures r.0.form == p.form && r.0.files == p.files
    ensures r.1 == SuccessToast
  {
    (p.(submissions := [NewEntry(p.submissions, p.captured.projectName, now)] + p.submissions,
        isSubmitting := false, uploadProgress := 0),
     SuccessToast)
  }

  /**
   * A whole submission: while the upload runs a second press is refused, the
   * form may be edited, and the entry recorded at the end carries the name
   * from the moment Submit was pressed. Exactly one entry is added.
   */
  lemma SubmitRun(p: Page, edited: Form, now: string)
    requires !p.isSubmitting && RequiredFilled(p.form)
    ensures var running := EditForm(StartSubmit(p), edited);
            && StartSubmit(running) == running
            && var done := FinishSubmit(running, now).0;
               && |done.submissions| == |p.submissions| + 1
               && done.submissions[1..] == p.submissions
               && done.submissions[0].projectName == p.form.projectName
               && done.form == edited
               && !done.isSubmitting
  {
  }

  /**
   * The history is numbered from the bottom: with `n` entries, the one at index
   * `i` has id `n - i` and version `v1.<n - 1 - i>`.
   */
  predicate WellNumbered(subs: seq<Entry>) {
    forall i :: 0 <= i < |subs| ==> subs[i].id == |subs| - i && subs[i].version == VersionLabel(|subs| - 1 - i)
  }

  lemma SeedWellNumbered()
    ensures WellNumbered(InitialPage.submissions)
  {
    assert Decimal(0) == "0";
  }

  /** Every submission keeps the history well numbered. */
  lemma FinishSubmitKeepsNumbering(p: Page, now: string)
    requires p.isSubmitting && WellNumbered(p.submissions)
    ensures WellNumbered(FinishSubmit(p, now).0.submissions)
  {
    var s := FinishSubmit(p, now).0.submissions;
    forall i | 0 <= i < |s|
      ensures s[i].id == |s| - i && s[i].version == VersionLabel(|s| - 1 - i)
    {
      if i > 0 {
        assert s[i] == p.submissions[i - 1];
      }
    }
  }

  /** In a well-numbered history no two entries share an id or a version label. */
  lemma WellNumberedDistinct(subs: seq<Entry>)
    requires WellNumbered(subs)
    ensures forall i, j :: 0 <= i < j < |subs| ==> subs[i].id != subs[j].id
    ensures forall i, j :: 0 <= i < j < |subs| ==> subs[i].version != subs[j].version
  {
    forall i, j | 0 <= i < j < |subs| ensures subs[i].version != subs[j].version {
      if subs[i].version == subs[j].version {
        VersionLabelInjective(|subs| - 1 - i, |subs| - 1 - j);
      }
    }
  }

  /** The first new submission after the seed entry is number 2, version v1.1, named as submitted. */
  lemma FirstSubmissionAfterSeed(f: Form, now: string)
    requires RequiredFilled(f)
    ensures var e := FinishSubmit(StartSubmit(EditForm(InitialPage, f)), now).0.submissions[0];
            e.id == 2 && e.version == "v1.1" && e.projectName == f.projectName
  {
    assert Decimal(1) == "1";
  }
}
