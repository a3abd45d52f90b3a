/** The code editor's chrome: button enabling, reset, download name and change normalisation. */
module Editor {
  import opened Wrappers
  import opened Text
  import opened Domain
  import Page

  /** The three pending flags the editor receives. */
  datatype Flags = Flags(isRunning: bool, isChecking: bool, isGenerating: bool)

  predicate RunDisabled(f: Flags) {
    f.isRunning || f.isGenerating
  }

  predicate CheckDisabled(f: Flags) {
    f.isChecking || f.isGenerating
  }

  /** An in-flight check never disables Run, and an in-flight run never disables Check. */
  lemma ButtonsAreIndependent(f: Flags, b: bool)
    ensures RunDisabled(f.(isChecking := b)) == RunDisabled(f)
    ensures CheckDisabled(f.(isRunning := b)) == CheckDisabled(f)
    ensures RunDisabled(f) <==> (f.isRunning || f.isGenerating)
    ensures !f.isGenerating ==> (RunDisabled(f) <==> f.isRunning) && (CheckDisabled(f) <==> f.isChecking)
  {
  }

  function Extension(l: Language): string {
    match l
    case Java => ".java"
    case Python => ".py"
    case C => ".c"
  }

  /** The fixed starter program per language. */
  function DefaultCode(l: Language): string {
    match l
    case Java =>
      "public class Main {" + "\n    public static void main(String[] args) {\n        // Write your code here\n        System.out.println(\"Hello, World!\");\n    }\n}"
    case Python =>
      "# Write your code here" + "\nprint(\"Hello, World!\")"
    case C =>
      "#include <stdio.h>" + "\n\nint main() {\n    // Write your code here\n    printf(\"Hello, World!\\n\");\n    return 0;\n}"
  }

  /** The download's file name: `solution` and the language's extension. */
  function DownloadName(l: Language): (r: string)
    ensures |r| > 9 && r[..8] == "solution" && r[8] == '.'
    ensures l == Java ==> r == "solution.java"
    ensures l == Python ==> r == "solution.py"
    ensures l == C ==> r == "solution.c"
  {
    "solution" + Extension(l)
  }

  /** Distinct languages download under distinct names. */
  lemma DownloadNameInjective(a: Language, b: Language)
    ensures DownloadName(a) == DownloadName(b) <==> a == b
  {
    if a != b {
      assert Extension(a) != Extension(b);
      assert DownloadName(a)[8..] == Extension(a);
      assert DownloadName(b)[8..] == Extension(b);
    }
  }

  /** The Reset button: the buffer becomes the current language's starter program. */
  function ResetCode(s: Page.State): (r: Page.State)
    ensures r.code == DefaultCode(s.language)
    ensures r == s.(code := r.code)
  {
    s.(code := DefaultCode(s.language))
  }

  /** A change event without a value is passed on as the empty string. */
  function OnChange(s: Page.State, value: Option<string>): (r: Page.State)
    ensures value.None? ==> r.code == ""
    ensures value.Some? ==> r.code == value.value
    ensures r == s.(code := r.code)
  {
    s.(code := value.GetOr(""))
  }

  /** After Reset the buffer is never blank, so the empty-code guard of check and run lets it through. */
  lemma ResetPassesEmptyCodeGuard(s: Page.State)
    ensures Page.CheckGate(ResetCode(s)) != Page.EmptyCode
    ensures Page.RunGate(ResetCode(s)) != Page.EmptyCode
  {
    DefaultCodeNotBlank(s.language);
    TrimEmptyIffBlank(DefaultCode(s.language));
  }

  lemma DefaultCodeNotBlank(l: Language)
    ensures !IsBlank(DefaultCode(l))
  {
    var code := DefaultCode(l);
    match l
    case Java => assert code[0] == 'p';
    case Python => assert code[0] == '#';
    case C => assert code[0] == '#';
  }

  /** An empty change event leaves a blank buffer, which check and run reject first. */
  lemma EmptyChangeIsRejected(s: Page.State)
    ensures Page.CheckGate(OnChange(s, None)) == Page.EmptyCode
    ensures Page.RunGate(OnChange(s, None)) == Page.EmptyCode
  {
  }
}
