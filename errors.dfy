/**
 The mediator's error taxonomy: six variants, each carrying one string,
 and the text each renders as through its `Display` implementation.
 */
module Errors {
  import opened Types

  datatype MediatorError =
    | CommandNotFound(detail: string)
    | QueryNotFound(detail: string)
    | HandlerTypeMismatch(detail: string)
    | CommandTypeMismatch(detail: string)
    | QueryTypeMismatch(detail: string)
    | QueryResultMismatch(detail: string)

  /** `Result<T, MediatorError>`. */
  datatype Result<T> = Ok(value: T) | Err(error: MediatorError)

  const CommandNotFoundText := "No command handler registered for type "
  const QueryNotFoundText := "No query handler registered for type "
  const HandlerTypeMismatchText := "Handler type mismatch for "
  const CommandTypeMismatchText := "Command type mismatch for "
  const QueryTypeMismatchText := "Query type mismatch for "
  const QueryResultMismatchText := "Query result type mismatch for "

  /** The fixed text that precedes the carried string when `e` is displayed. */
  function Lead(e: MediatorError): string
  {
    match e
    case CommandNotFound(_) => CommandNotFoundText
    case QueryNotFound(_) => QueryNotFoundText
    case HandlerTypeMismatch(_) => HandlerTypeMismatchText
    case CommandTypeMismatch(_) => CommandTypeMismatchText
    case QueryTypeMismatch(_) => QueryTypeMismatchText
    case QueryResultMismatch(_) => QueryResultMismatchText
  }

  /** The `#[error("...")]` rendering of each variant: its fixed text, then the carried string. */
  function Display(e: MediatorError): (s: string)
    ensures e.CommandNotFound? ==> s == "No command handler registered for type " + e.detail
    ensures e.QueryNotFound? ==> s == "No query handler registered for type " + e.detail
    ensures e.HandlerTypeMismatch? ==> s == "Handler type mismatch for " + e.detail
    ensures e.CommandTypeMismatch? ==> s == "Command type mismatch for " + e.detail
    ensures e.QueryTypeMismatch? ==> s == "Query type mismatch for " + e.detail
    ensures e.QueryResultMismatch? ==> s == "Query result type mismatch for " + e.detail
  {
    Lead(e) + e.detail
  }

  /** What follows `lead` in `s`, which starts with it. */
  function After(s: string, lead: string): (rest: string)
    requires lead <= s
    ensures lead + rest == s
  {
    assert s == lead + s[|lead|..];
    s[|lead|..]
  }

  /**
   Reads a rendered message back into the error it came from, or `None`
   when the text does not start with any variant's fixed text.
   */
  function Parse(s: string): (r: Option<MediatorError>)
    ensures r.Some? ==> Display(r.value) == s
  {
    if CommandNotFoundText <= s then Some(CommandNotFound(After(s, CommandNotFoundText)))
    else if QueryNotFoundText <= s then Some(QueryNotFound(After(s, QueryNotFoundText)))
    else if HandlerTypeMismatchText <= s then Some(HandlerTypeMismatch(After(s, HandlerTypeMismatchText)))
    else if CommandTypeMismatchText <= s then Some(CommandTypeMismatch(After(s, CommandTypeMismatchText)))
    else if QueryTypeMismatchText <= s then Some(QueryTypeMismatch(After(s, QueryTypeMismatchText)))
    else if QueryResultMismatchText <= s then Some(QueryResultMismatch(After(s, QueryResultMismatchText)))
    else None
  }

  /** Reading past a text's own lead gives back what followed it. */
  lemma AfterLead(lead: string, rest: string)
    ensures lead <= lead + rest && After(lead + rest, lead) == rest
  {
    assert (lead + rest)[..|lead|] == lead;
  }

  /** A text that differs from `s` at some index is not a prefix of `s`. */
  lemma DiffersAt(t: string, s: string, i: nat)
    requires i < |t| && i < |s| && t[i] != s[i]
    ensures !(t <= s)
  {
  }

  /**
   No variant's fixed text is a prefix of another's rendering, so the
   rendering determines both the variant and the carried string.
   */
  lemma {:induction false} ParseDisplay(e: MediatorError)
    ensures Parse(Display(e)) == Some(e)
  {
    var s := Display(e);
    AfterLead(Lead(e), e.detail);
    assert s[..|Lead(e)|] == Lead(e);
    match e
    case CommandNotFound(_) =>
    case QueryNotFound(_) =>
      assert s[3] == 'q';
      DiffersAt(CommandNotFoundText, s, 3);
    case HandlerTypeMismatch(_) =>
      assert s[0] == 'H';
      DiffersAt(CommandNotFoundText, s, 0);
      DiffersAt(QueryNotFoundText, s, 0);
    case CommandTypeMismatch(_) =>
      assert s[0] == 'C';
      DiffersAt(CommandNotFoundText, s, 0);
      DiffersAt(QueryNotFoundText, s, 0);
      DiffersAt(HandlerTypeMismatchText, s, 0);
    case QueryTypeMismatch(_) =>
      assert s[0] == 'Q';
      DiffersAt(CommandNotFoundText, s, 0);
      DiffersAt(QueryNotFoundText, s, 0);
      DiffersAt(HandlerTypeMismatchText, s, 0);
      DiffersAt(CommandTypeMismatchText, s, 0);
    case QueryResultMismatch(_) =>
      assert s[0] == 'Q' && s[6] == 'r';
      DiffersAt(CommandNotFoundText, s, 0);
      DiffersAt(QueryNotFoundText, s, 0);
      DiffersAt(HandlerTypeMismatchText, s, 0);
      DiffersAt(CommandTypeMismatchText, s, 0);
      DiffersAt(QueryTypeMismatchText, s, 6);
  }

  /** Distinct errors never render as the same text. */
  lemma {:induction false} DisplayInjective(e1: MediatorError, e2: MediatorError)
    requires Display(e1) == Display(e2)
    ensures e1 == e2
  {
    ParseDisplay(e1);
    ParseDisplay(e2);
  }
}
