/** The "AI Insights" panel (frontend/src/components/Interpreter.jsx).

    On demand it shapes the analytics result the page already holds into
    the request for the interpret endpoint (a pure function of the result
    and the user's query), and it tracks the request's lifecycle in four
    state variables. The HTTP exchange is an abstract `Outcome`.
 */
module Interpreter {
  import opened Js

  const SpecialCaseMode := "special_case"
  const BaseCaseMode := "base_case"
  /** How many display rows are forwarded as `top_reviews`. */
  const MaxTopReviews := 5
  const UnknownAirline := "Unknown"
  const DescriptionKey := "description"
  const NoInterpretation := "No interpretation returned."
  const InterpretFailed := "Failed to interpret results."
  const ApiErrorPrefix := "API Error: "
  const ApiErrorSeparator := " - "

  /** One review record of `display_rows`. The five pass-through fields are
      forwarded as received, so they keep their raw JSON form. */
  datatype ReviewRow = ReviewRow(
    airline_name: Option<string>,
    overall_rating: Option<Json>,
    recommended: Option<Json>,
    verified: Option<Json>,
    seat_type: Option<Json>,
    type_of_traveller: Option<Json>,
    review: Option<string>)

  /** The fields of the backend's analytics result that the panel reads. */
  datatype AnalyticsResult = AnalyticsResult(
    mode: Option<string>,
    display_rows: Option<seq<ReviewRow>>,
    interpreted_query: Option<string>,
    semantic_query_used: Option<string>,
    summary_stats: Option<Entries<Json>>,
    base_stats: Option<Entries<Json>>,
    multivalue_stats: Option<Entries<Json>>,
    user_message: Option<string>)

  /** A normalised review as sent in the request. */
  datatype TopReview = TopReview(
    airline_name: string,
    overall_rating: Option<Json>,
    recommended: Option<Json>,
    verified: Option<Json>,
    seat_type: Option<Json>,
    type_of_traveller: Option<Json>,
    review: string)

  /** The JSON body posted to the interpret endpoint; `None` in
      `special_stats` is `null`. */
  datatype Payload = Payload(
    query: string,
    reintr_query: string,
    top_reviews: seq<TopReview>,
    base_stats: Entries<Json>,
    special_stats: Option<Entries<Json>>)

  /** `results.mode || 'base_case'` */
  function Mode(r: AnalyticsResult): string {
    OrElse(r.mode, BaseCaseMode)
  }

  predicate IsSpecial(r: AnalyticsResult)
    ensures IsSpecial(r) <==> r.mode == Some(SpecialCaseMode)
  {
    Mode(r) == SpecialCaseMode
  }

  /** `display_rows || []` */
  function Rows(r: AnalyticsResult): seq<ReviewRow> {
    r.display_rows.GetOr([])
  }

  function Min(a: int, b: int): int {
    if a <= b then a else b
  }

  /** The record built for one display row. */
  function NormalizeRow(row: ReviewRow): (t: TopReview)
    ensures t.airline_name == UnknownAirline <==> row.airline_name in {None, Some(""), Some(UnknownAirline)}
    ensures t.airline_name != UnknownAirline ==> row.airline_name == Some(t.airline_name)
    ensures t.review == row.review.GetOr("")
    ensures t.overall_rating == row.overall_rating && t.recommended == row.recommended
    ensures t.verified == row.verified && t.seat_type == row.seat_type
    ensures t.type_of_traveller == row.type_of_traveller
  {
    TopReview(
      OrElse(row.airline_name, UnknownAirline),
      row.overall_rating,
      row.recommended,
      row.verified,
      row.seat_type,
      row.type_of_traveller,
      OrElse(row.review, ""))
  }

  /** `topRows.map(...)` over `(display_rows || []).slice(0, 5)`. */
  function TopReviews(r: AnalyticsResult): (t: seq<TopReview>)
    ensures |t| == Min(MaxTopReviews, |Rows(r)|)
    ensures forall i :: 0 <= i < |t| ==> t[i] == NormalizeRow(Rows(r)[i])
  {
    var top := Rows(r)[..Min(MaxTopReviews, |Rows(r)|)];
    seq(|top|, i requires 0 <= i < |top| => NormalizeRow(top[i]))
  }

  /** The statistics object forwarded as `special_stats`: the result's
      `multivalue_stats` in special_case, with `description` set on a copy
      when there is a user message; `null` otherwise. */
  function SpecialStats(r: AnalyticsResult): (s: Option<Entries<Json>>)
    ensures !IsSpecial(r) || r.multivalue_stats.None? ==> s.None?
    ensures IsSpecial(r) && r.multivalue_stats.Some? && OrElse(r.user_message, "") == "" ==>
      s == r.multivalue_stats
    ensures IsSpecial(r) && r.multivalue_stats.Some? && OrElse(r.user_message, "") != "" ==>
      s.Some? &&
      Get(s.value, DescriptionKey) == Some(Str(r.user_message.value)) &&
      (forall k :: k != DescriptionKey ==> Get(s.value, k) == Get(r.multivalue_stats.value, k))
  {
    if !IsSpecial(r) then None
    else if r.multivalue_stats.None? then None
    else if r.user_message.Some? && r.user_message.value != "" then
      Some(Put(r.multivalue_stats.value, DescriptionKey, Str(r.user_message.value)))
    else r.multivalue_stats
  }

  /** The request body built from the current result and the user's query. */
  function BuildPayload(r: AnalyticsResult, query: Option<string>): (p: Payload)
    ensures p.query == query.GetOr("")
    ensures p.reintr_query ==
      (if r.mode == Some(SpecialCaseMode) then r.semantic_query_used else r.interpreted_query).GetOr("")
    ensures p.base_stats ==
      (if r.mode == Some(SpecialCaseMode) then r.base_stats else r.summary_stats).GetOr([])
    ensures r.mode != Some(SpecialCaseMode) ==> p.special_stats.None?
    ensures |p.top_reviews| <= MaxTopReviews && |p.top_reviews| <= |Rows(r)|
    ensures |p.top_reviews| == MaxTopReviews || |p.top_reviews| == |Rows(r)|
    ensures p.top_reviews == TopReviews(r)
    ensures p.special_stats == SpecialStats(r)
  {
    var reintr := if IsSpecial(r) then OrElse(r.semantic_query_used, "")
                  else OrElse(r.interpreted_query, "");
    var baseStats := if IsSpecial(r) then r.base_stats.GetOr([])
                     else r.summary_stats.GetOr([]);
    Payload(OrElse(query, ""), OrElse(Some(reintr), ""), TopReviews(r), baseStats, SpecialStats(r))
  }

  /** A result without `mode`, or with an empty one, is shaped as a
      base_case result. */
  lemma MissingModeIsBaseCase(r: AnalyticsResult, query: Option<string>)
    requires r.mode in {None, Some("")}
    ensures Mode(r) == BaseCaseMode
    ensures BuildPayload(r, query).reintr_query == r.interpreted_query.GetOr("")
    ensures BuildPayload(r, query).base_stats == r.summary_stats.GetOr([])
    ensures BuildPayload(r, query).special_stats.None?
  {
  }

  /** Forwarding at most five rows keeps them in order: the reviews sent are
      exactly the normalised prefix of the display rows. */
  lemma {:induction false} TopReviewsArePrefix(r: AnalyticsResult, n: nat)
    requires n == Min(MaxTopReviews, |Rows(r)|)
    ensures TopReviews(r) == NormalizeAll(Rows(r)[..n])
  {
    var t := TopReviews(r);
    var u := NormalizeAll(Rows(r)[..n]);
    NormalizeAllAt(Rows(r)[..n]);
    assert |t| == |u|;
    forall i | 0 <= i < |t| ensures t[i] == u[i] {
    }
  }

  /** `rows.map(normalize)` written as a recursion over the rows. */
  function NormalizeAll(rows: seq<ReviewRow>): seq<TopReview> {
    if rows == [] then [] else [NormalizeRow(rows[0])] + NormalizeAll(rows[1..])
  }

  lemma {:induction false} NormalizeAllAt(rows: seq<ReviewRow>)
    ensures |NormalizeAll(rows)| == |rows|
    ensures forall i :: 0 <= i < |rows| ==> NormalizeAll(rows)[i] == NormalizeRow(rows[i])
  {
    if rows != [] {
      NormalizeAllAt(rows[1..]);
    }
  }

  /** The original `multivalue_stats` keeps every property it had, in the
      same order, in the forwarded copy; `description` is the only key that
      can be added. */
  lemma SpecialStatsKeys(r: AnalyticsResult)
    requires IsSpecial(r) && r.multivalue_stats.Some?
    ensures SpecialStats(r).Some?
    ensures var ks := Keys(r.multivalue_stats.value);
      Keys(SpecialStats(r).value) == ks ||
      (DescriptionKey !in ks && Keys(SpecialStats(r).value) == ks + [DescriptionKey])
  {
  }

  // ---------------------------------------------------------------------
  // Decimal rendering of the HTTP status in the error message.

  function DigitChar(d: nat): (c: char)
    requires d < 10
    ensures '0' <= c <= '9' && c as int - '0' as int == d
  {
    ('0' as int + d) as char
  }

  /** The decimal digits of `n`, as `${n}` renders a non-negative integer. */
  function NatToString(n: nat): (s: string)
    ensures |s| >= 1
    ensures forall i :: 0 <= i < |s| ==> '0' <= s[i] <= '9'
    ensures n >= 10 ==> s[0] != '0'
    decreases n
  {
    if n < 10 then [DigitChar(n)] else NatToString(n / 10) + [DigitChar(n % 10)]
  }

  /** The number a string of decimal digits denotes. */
  function ParseNat(s: string): nat
    requires forall i :: 0 <= i < |s| ==> '0' <= s[i] <= '9'
  {
    if |s| == 0 then 0 else ParseNat(s[..|s| - 1]) * 10 + (s[|s| - 1] as int - '0' as int)
  }

  lemma {:induction false} ParseNatToString(n: nat)
    ensures ParseNat(NatToString(n)) == n
    decreases n
  {
    if n >= 10 {
      var s := NatToString(n);
      assert s[..|s| - 1] == NatToString(n / 10);
      ParseNatToString(n / 10);
    }
  }

  /** `API Error: ${resp.status} - ${errorText}` */
  function ApiErrorMessage(status: nat, body: string): (m: string)
    ensures |m| == |ApiErrorPrefix| + |NatToString(status)| + |ApiErrorSeparator| + |body|
    ensures m[..|ApiErrorPrefix|] == ApiErrorPrefix
    ensures m[|ApiErrorPrefix|..|ApiErrorPrefix| + |NatToString(status)|] == NatToString(status)
    ensures m[|ApiErrorPrefix| + |NatToString(status)|..|m| - |body|] == ApiErrorSeparator
    ensures m[|m| - |body|..] == body
  {
    ApiErrorPrefix + NatToString(status) + ApiErrorSeparator + body
  }

  /** The error message names the status (it can be read back from the
      message) and ends with the response body. */
  lemma ApiErrorCarriesStatusAndBody(status: nat, body: string)
    ensures var m := ApiErrorMessage(status, body);
      var digits := m[|ApiErrorPrefix|..|ApiErrorPrefix| + |NatToString(status)|];
      ParseNat(digits) == status && m[|m| - |body|..] == body
  {
    ParseNatToString(status);
  }

  // ---------------------------------------------------------------------
  // The request lifecycle.

  /** What the interpret request came back with. */
  datatype Outcome =
    | Answered(answer: Option<string>)      // an ok response whose JSON has `answer` (or not)
    | HttpError(status: nat, body: string)  // a response that is not ok, with its body text
    | Failed(message: string)               // a network or decoding failure and its message

  /** The lifecycle as the panel displays it. */
  datatype Phase = Idle | Loading | Succeeded(text: string) | Errored(message: string)

  /** The phase an outcome settles the lifecycle in. */
  function Settled(o: Outcome): (p: Phase)
    ensures p.Succeeded? <==> o.Answered?
    ensures p.Errored? <==> !o.Answered?
    ensures p.Succeeded? ==>
              p.text != "" &&
              (if OrElse(o.answer, "") != "" then p.text == o.answer.value else p.text == NoInterpretation)
    ensures p.Errored? ==> p.message != ""
    ensures o.HttpError? ==> p == Errored(ApiErrorMessage(o.status, o.body))
    ensures o.Failed? && o.message != "" ==> p == Errored(o.message)
    ensures o.Failed? && o.message == "" ==> p == Errored(InterpretFailed)
  {
    match o
    case Answered(a) => Succeeded(OrElse(a, NoInterpretation))
    case HttpError(status, body) => Errored(OrElse(Some(ApiErrorMessage(status, body)), InterpretFailed))
    case Failed(msg) => Errored(OrElse(Some(msg), InterpretFailed))
  }

  /** A 500 response with body "boom" gives an error naming both. */
  lemma ServerErrorExample()
    ensures Settled(HttpError(500, "boom")) == Errored("API Error: 500 - boom")
  {
    assert NatToString(5) == "5";
    assert NatToString(50) == "50";
    assert NatToString(500) == "500";
  }

  /** The panel's state: the result and query it was given, and the four
      state variables of the component. */
  class InterpreterPanel {
    const results: Option<AnalyticsResult>
    const query: Option<string>
    var isExpanded: bool
    var isInterpreting: bool
    var interpretError: Option<string>
    var agentText: Option<string>

    /** The variables always describe one lifecycle phase. */
    predicate Valid()
      reads this
    {
      !(interpretError.Some? && agentText.Some?) &&
      (isInterpreting ==> interpretError.None? && agentText.None?)
    }

    function CurrentPhase(): Phase
      reads this
      requires Valid()
    {
      if isInterpreting then Loading
      else if agentText.Some? then Succeeded(agentText.value)
      else if interpretError.Some? then Errored(interpretError.value)
      else Idle
    }

    constructor (results: Option<AnalyticsResult>, query: Option<string>)
      ensures this.results == results && this.query == query
      ensures Valid() && CurrentPhase() == Idle && !isExpanded
    {
      this.results := results;
      this.query := query;
      isExpanded := false;
      isInterpreting := false;
      interpretError := None;
      agentText := None;
    }

    /** The part of `handleInterpret` up to the request: without results it
        does nothing; otherwise it opens the panel, enters Loading (dropping
        the previous text and error) and returns the body it posts. */
    method Begin() returns (sent: Option<Payload>)
      requires Valid()
      modifies this
      ensures Valid()
      ensures results.None? ==> sent.None? && unchanged(this)
      ensures results.Some? ==>
        sent == Some(BuildPayload(results.value, query)) &&
        isExpanded && CurrentPhase() == Loading &&
        isInterpreting && interpretError.None? && agentText.None?
    {
      if results.None? {
        return None;
      }
      isExpanded := true;
      isInterpreting := true;
      interpretError := None;
      agentText := None;
      sent := Some(BuildPayload(results.value, query));
    }

    /** The part of `handleInterpret` after the request: the answer or the
        error is stored and loading ends, whatever the outcome. */
    method Settle(outcome: Outcome)
      requires Valid() && isInterpreting
      modifies this
      ensures Valid() && !isInterpreting
      ensures isExpanded == old(isExpanded)
      ensures CurrentPhase() == Settled(outcome)
    {
      match outcome {
        case Answered(answer) =>
          agentText := Some(OrElse(answer, NoInterpretation));
        case HttpError(status, body) =>
          var message := ApiErrorMessage(status, body);
          interpretError := Some(OrElse(Some(message), InterpretFailed));
        case Failed(message) =>
          interpretError := Some(OrElse(Some(message), InterpretFailed));
      }
      isInterpreting := false;
    }

    /** One complete `handleInterpret` whose request comes back with
        `outcome`. */
    method HandleInterpret(outcome: Outcome) returns (sent: Option<Payload>)
      requires Valid()
      modifies this
      ensures Valid()
      ensures results.None? ==> sent.None? && unchanged(this)
      ensures results.Some? ==>
        sent == Some(BuildPayload(results.value, query)) &&
        isExpanded && !isInterpreting && CurrentPhase() == Settled(outcome)
    {
      sent := Begin();
      if sent.Some? {
        Settle(outcome);
      }
    }
  }
}
