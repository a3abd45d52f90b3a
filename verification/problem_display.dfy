/** The problem panel: which view it shows, and the import dialog. */
module ProblemDisplay {
  import opened Wrappers
  import opened Text
  import opened Domain
  import Page

  /** What the panel renders. */
  datatype View = Skeleton | Placeholder | Shown(problem: Problem)

  /** Generating wins over everything; then a missing problem shows the placeholder. */
  function SelectView(isGenerating: bool, problem: Option<Problem>): (v: View)
    ensures v.Skeleton? <==> isGenerating
    ensures v.Placeholder? <==> !isGenerating && problem.None?
    ensures v.Shown? ==> problem == Some(v.problem)
  {
    if isGenerating then Skeleton
    else if problem.None? then Placeholder
    else Shown(problem.value)
  }

  /** The dialog's form on open and after a successful import. */
  const EmptyForm := Page.ImportData("", "", Java, Easy, "")

  datatype Dialog = Dialog(open: bool, form: Page.ImportData)

  /** The dialog after the Import button, and the data handed to the page (`None`: nothing was sent). */
  datatype Imported = Imported(dialog: Dialog, emitted: Option<Page.ImportData>)

  /** The Import button is enabled exactly when the statement is not blank. */
  predicate ImportEnabled(form: Page.ImportData) {
    Trim(form.problemStatement) != ""
  }

  /**
   * The import handler: with a callback and a non-blank statement the form
   * goes to the page unchanged, the dialog closes and the form resets;
   * otherwise nothing changes.
   */
  function HandleImport(d: Dialog, hasCallback: bool): (r: Imported)
    ensures r.emitted.Some? <==> hasCallback && !IsBlank(d.form.problemStatement)
    ensures r.emitted.Some? ==> r.emitted.value == d.form && r.dialog == Dialog(false, EmptyForm)
    ensures r.emitted.None? ==> r.dialog == d
  {
    TrimEmptyIffBlank(d.form.problemStatement);
    if hasCallback && Trim(d.form.problemStatement) != "" then
      Imported(Dialog(false, EmptyForm), Some(d.form))
    else
      Imported(d, None)
  }

  /** With a callback wired, a press of an enabled button always imports, and a disabled one could never have. */
  lemma ImportButtonMatchesHandler(d: Dialog)
    ensures ImportEnabled(d.form) <==> HandleImport(d, true).emitted.Some?
  {
    TrimEmptyIffBlank(d.form.problemStatement);
  }

  /** Up to 200 characters are shown as is; longer text is cut to 200 and marked with an ellipsis. */
  function Preview(s: string): (r: string)
    ensures |r| <= 203
    ensures |s| <= 200 ==> r == s
    ensures |s| > 200 ==> |r| == 203 && r[..200] == s[..200] && r[200..] == "..."
  {
    if |s| > 200 then s[..200] + "..." else s
  }

  /** The preview block appears when either text is non-empty; white space counts. */
  predicate ShowPreview(form: Page.ImportData) {
    form.problemStatement != "" || form.expectedOutput != ""
  }

  /**
   * A statement made of white space alone shows a preview yet cannot be
   * imported; any other non-empty statement can be.
   */
  lemma BlankStatementPreviewedNotImported(f: Page.ImportData)
    ensures f.problemStatement != "" ==> ShowPreview(f)
    ensures ImportEnabled(f) <==> !IsBlank(f.problemStatement)
  {
    TrimEmptyIffBlank(f.problemStatement);
  }

  /** A previewed text is always a prefix of the original when the ellipsis is removed. */
  lemma PreviewIsPrefix(s: string)
    ensures var r := Preview(s); var k := if |s| > 200 then 200 else |s|;
      r[..k] == s[..k] && (|r| == k || r[k..] == "...")
  {
  }
}
