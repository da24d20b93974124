/**
 * The import dialog: the pasted text, a loading flag, an error message and
 * the preview list. Parsing is asynchronous in the application; here it is
 * a start step and a finish step, and the remote parser's answer is the
 * `ParseOutcome` handed to the finish step.
 */
module SmartImport {
  import opened Types

  // ---------------------------------------------------------------------
  // Trimming, as the string `trim` of the language the dialog runs in.
  // ---------------------------------------------------------------------

  /** White space and line terminators removed by `trim`. */
  predicate IsWhitespace(c: char)
  {
    || c == '\t' || c == '\n' || c == '\U{000B}' || c == '\U{000C}' || c == '\r' || c == ' '
    || c == '\U{00A0}' || c == '\U{1680}' || ('\U{2000}' <= c <= '\U{200A}')
    || c == '\U{2028}' || c == '\U{2029}' || c == '\U{202F}' || c == '\U{205F}'
    || c == '\U{3000}' || c == '\U{FEFF}'
  }

  predicate Blank(s: string)
  {
    forall i :: 0 <= i < |s| ==> IsWhitespace(s[i])
  }

  /** How many white-space characters open `s`. */
  function LeadingBlanks(s: string): (n: nat)
    ensures n <= |s|
    ensures forall i :: 0 <= i < n ==> IsWhitespace(s[i])
    ensures n < |s| ==> !IsWhitespace(s[n])
  {
    if s == [] || !IsWhitespace(s[0]) then 0 else 1 + LeadingBlanks(s[1..])
  }

  /** How many white-space characters close `s`. */
  function TrailingBlanks(s: string): (n: nat)
    ensures n <= |s|
    ensures forall i :: |s| - n <= i < |s| ==> IsWhitespace(s[i])
    ensures n < |s| ==> !IsWhitespace(s[|s| - 1 - n])
  {
    if s == [] || !IsWhitespace(s[|s| - 1]) then 0 else 1 + TrailingBlanks(s[..|s| - 1])
  }

  /** `s` without its leading and trailing white space. */
  function Trim(s: string): (r: string)
    ensures r == [] <==> Blank(s)
    ensures r != [] ==> !IsWhitespace(r[0]) && !IsWhitespace(r[|r| - 1])
    ensures |r| <= |s|
    ensures exists k :: 0 <= k <= |s| - |r| && r == s[k..k + |r|] && Blank(s[..k]) && Blank(s[k + |r|..])
  {
    var lead := LeadingBlanks(s);
    var rest := s[lead..];
    var r := rest[..|rest| - TrailingBlanks(rest)];
    assert r == s[lead..lead + |r|];
    assert Blank(s[..lead]);
    assert Blank(s[lead + |r|..]) by {
      assert s[lead + |r|..] == rest[|r|..];
    }
    assert r == [] ==> rest == [] by {
      assert rest != [] ==> !IsWhitespace(rest[0]);
    }
    r
  }

  // ---------------------------------------------------------------------
  // The dialog.
  // ---------------------------------------------------------------------

  /** The remote parser's answer: the parsed list, or a failure whose message may be missing. */
  datatype ParseOutcome = Parsed(list: seq<Transaction>) | Failed(message: Option<string>)

  /** A callback the dialog fires, in the order fired. */
  datatype ImportEffect = OnImport(batch: seq<Transaction>) | OnClose

  /** What the dialog's body shows: the text box (with any error) or the preview table. */
  datatype Screen = TextEntry | PreviewTable

  const DefaultError: string := "Erro ao processar"

  /** The message shown for a failure: its own when it has a non-empty one, the default otherwise. */
  function ErrorText(message: Option<string>): (r: string)
    ensures r != ""
    ensures message.Some? && message.value != "" ==> r == message.value
    ensures message.None? || message.value == "" ==> r == DefaultError
  {
    match message
    case Some(m) => if m != "" then m else DefaultError
    case None => DefaultError
  }

  class ImportDialog {
    var text: string
    var loading: bool
    var error: Option<string>
    var preview: Option<seq<Transaction>>

    constructor ()
      ensures text == "" && !loading && error == None && preview == None
      ensures Screen() == TextEntry
    {
      text := "";
      loading := false;
      error := None;
      preview := None;
    }

    function Screen(): (s: Screen)
      reads this
      ensures s == PreviewTable <==> preview.Some?
    {
      if preview.None? then TextEntry else PreviewTable
    }

    /** The parse button is enabled only when not loading and the trimmed text is non-empty. */
    predicate CanParse()
      reads this
      ensures CanParse() <==> !loading && !Blank(text)
    {
      !loading && Trim(text) != ""
    }

    /** Typing in the text box. */
    method SetText(t: string)
      modifies this
      ensures text == t
      ensures loading == old(loading) && error == old(error) && preview == old(preview)
    {
      text := t;
    }

    /**
     * The first half of `handleParse`: blank text changes nothing and calls
     * no parser; otherwise loading starts and any earlier error is cleared.
     */
    method StartParse() returns (started: bool)
      modifies this
      ensures started <==> !Blank(old(text))
      ensures !started ==> loading == old(loading) && error == old(error)
      ensures started ==> loading && error == None
      ensures text == old(text) && preview == old(preview)
    {
      if Trim(text) == "" {
        return false;
      }
      loading := true;
      error := None;
      started := true;
    }

    /**
     * The second half: a parsed list becomes the preview; a failure sets the
     * error message and keeps the preview. Loading ends either way.
     */
    method FinishParse(outcome: ParseOutcome)
      modifies this
      ensures !loading
      ensures outcome.Parsed? ==> preview == Some(outcome.list) && error == old(error)
      ensures outcome.Failed? ==> error == Some(ErrorText(outcome.message)) && preview == old(preview)
      ensures text == old(text)
    {
      if outcome.Parsed? {
        preview := Some(outcome.list);
      } else {
        error := Some(ErrorText(outcome.message));
      }
      loading := false;
    }

    /** The whole of `handleParse`, run to completion with the parser's answer. */
    method HandleParse(outcome: ParseOutcome) returns (called: bool)
      modifies this
      ensures called <==> !Blank(old(text))
      ensures !called ==> loading == old(loading) && error == old(error) && preview == old(preview)
      ensures called ==> !loading
      ensures called && outcome.Parsed? ==> preview == Some(outcome.list) && error == None && Screen() == PreviewTable
      ensures called && outcome.Failed? ==> error == Some(ErrorText(outcome.message)) && preview == old(preview)
      ensures text == old(text)
    {
      called := StartParse();
      if called {
        FinishParse(outcome);
      }
    }

    /**
     * `handleConfirm`: without a preview nothing happens; with one (even an
     * empty list) exactly that list is imported, then the dialog closes.
     */
    method HandleConfirm() returns (effects: seq<ImportEffect>)
      ensures preview.None? ==> effects == []
      ensures preview.Some? ==> effects == [OnImport(preview.value), OnClose]
    {
      effects := [];
      if preview.Some? {
        effects := effects + [OnImport(preview.value)];
        effects := effects + [OnClose];
      }
    }

    /** The back button: the preview is dropped and the text box shown again. */
    method Back()
      modifies this
      ensures preview == None && Screen() == TextEntry
      ensures text == old(text) && loading == old(loading) && error == old(error)
    {
      preview := None;
    }
  }
}
