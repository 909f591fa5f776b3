/** The poll-creation page (src/pages/CreatePoll.tsx): a form whose option
    list is kept between two and ten entries by its editing operations, and a
    submit step that validates, trims and filters before it sends anything. */
module CreatePollPage {
  import opened Common
  import Api
  import DashboardPage

  const MinOptions := 2
  const MaxOptions := 10
  const MaxQuestionLength := 255

  const EnterQuestionToast := "Please enter a poll question"
  const TwoOptionsToast := "Please provide at least 2 poll options"
  const QuestionTooLongToast := "Question must be 255 characters or less"

  /** `options.filter(o => o.trim())`: the options that are not blank, as
      typed (untrimmed) and in their order. */
  function FilledOptions(options: seq<string>): seq<string> {
    Filter(options, (o: string) => !IsBlank(o))
  }

  /** The options kept are exactly those that keep some text once trimmed,
      in their order. */
  lemma FilledOptionsSpec(options: seq<string>)
    ensures forall o :: o in FilledOptions(options) <==> o in options && Trim(o) != ""
    ensures |FilledOptions(options)| <= |options|
    ensures forall k :: 0 <= k <= |options| ==>
      FilledOptions(options) == FilledOptions(options[..k]) + FilledOptions(options[k..])
  {
    var keep := (o: string) => !IsBlank(o);
    forall o ensures o in Filter(options, keep) <==> o in options && Trim(o) != "" {
      FilterMembership(options, keep, o);
      BlankIffTrimEmpty(o);
    }
    forall k | 0 <= k <= |options|
      ensures Filter(options, keep) == Filter(options[..k], keep) + Filter(options[k..], keep)
    {
      assert options == options[..k] + options[k..];
      FilterAppend(options[..k], options[k..], keep);
    }
  }

  /** The submit checks in their order (a question blank after trimming; fewer
      than two non-blank options; an untrimmed question longer than 255
      UTF-16 code units), then the request body: the trimmed question and the
      untrimmed non-blank options. */
  function Validate(question: string, options: seq<string>, visibility: Api.Visibility): Result<Api.PollData> {
    if IsBlank(question) then Err(EnterQuestionToast)
    else if |FilledOptions(options)| < MinOptions then Err(TwoOptionsToast)
    else if Utf16Length(question) > MaxQuestionLength then Err(QuestionTooLongToast)
    else Ok(Api.PollData(Trim(question), FilledOptions(options), visibility))
  }

  /** Validation accepts exactly a question that keeps some text once
      trimmed and is at most 255 code units long, together with at least two
      options that keep some text. */
  lemma ValidateAccepts(question: string, options: seq<string>, visibility: Api.Visibility)
    ensures Validate(question, options, visibility).Ok? <==>
      Trim(question) != "" && |FilledOptions(options)| >= MinOptions && Utf16Length(question) <= MaxQuestionLength
  {
    BlankIffTrimEmpty(question);
  }

  /** The question sent is the typed one without its surrounding spaces:
      it has text, no space at either end and at most 255 code units. */
  lemma ValidatedQuestion(question: string, options: seq<string>, visibility: Api.Visibility)
    requires Validate(question, options, visibility).Ok?
    ensures var q := Validate(question, options, visibility).value.question;
      q != "" && Utf16Length(q) <= MaxQuestionLength && !IsSpace(q[0]) && !IsSpace(q[|q| - 1])
  {
    var q := Validate(question, options, visibility).value.question;
    assert q == Trim(question) && !IsBlank(question) && Utf16Length(question) <= MaxQuestionLength;
    BlankIffTrimEmpty(question);
    TrimmedQuestionShape(question);
  }

  /** The trimmed question is no longer than the typed one and has no space
      at either end. */
  lemma TrimmedQuestionShape(question: string)
    requires Trim(question) != ""
    ensures Utf16Length(Trim(question)) <= Utf16Length(question)
    ensures !IsSpace(Trim(question)[0]) && !IsSpace(Trim(question)[|Trim(question)| - 1])
  {
    TrimShape(question);
    var i :| OccursAt(question, Trim(question), i);
    Utf16LengthOfPiece(question, i, i + |Trim(question)|);
  }

  /** A question whose characters all lie outside the Basic Multilingual
      Plane is too long from 128 characters on, although it has fewer than
      255 of them. */
  lemma AstralQuestionTooLong(question: string, options: seq<string>, visibility: Api.Visibility)
    requires Trim(question) != "" && |FilledOptions(options)| >= MinOptions
    requires |question| >= 128 && forall k :: 0 <= k < |question| ==> IsAstral(question[k])
    ensures Validate(question, options, visibility) == Err(QuestionTooLongToast)
  {
    BlankIffTrimEmpty(question);
    Utf16LengthCounts(question);
  }

  /** The options sent are at least two, each with text, and the visibility
      is the one chosen. */
  lemma ValidatedOptions(question: string, options: seq<string>, visibility: Api.Visibility)
    requires Validate(question, options, visibility).Ok?
    ensures var body := Validate(question, options, visibility).value;
      && |body.options| >= MinOptions
      && (forall k :: 0 <= k < |body.options| ==> Trim(body.options[k]) != "")
      && body.visibility == visibility
  {
    var filled := FilledOptions(options);
    forall k | 0 <= k < |filled| ensures Trim(filled[k]) != "" {
      BlankIffTrimEmpty(filled[k]);
    }
  }

  /** A question of spaces is reported as missing even when the options are
      missing too: the question check comes first. */
  lemma QuestionCheckedFirst(question: string, options: seq<string>, visibility: Api.Visibility)
    requires Trim(question) == ""
    ensures Validate(question, options, visibility) == Err(EnterQuestionToast)
  {
    BlankIffTrimEmpty(question);
  }

  const CreateFailedToast := "Failed to create poll. Please try again."

  datatype SubmitOutcome =
    | Rejected(toast: string)
    | Created(shareUrl: Option<string>, navigateTo: string)
    | Failed(toast: string)

  /** The message for a failed creation: a "400" in the error means bad input. */
  function CreateErrorToast(message: string): (t: string)
    ensures Includes(message, "400") ==> t == CheckInputToast
    ensures !Includes(message, "400") ==> t == CreateFailedToast
  {
    if Includes(message, "400") then CheckInputToast else CreateFailedToast
  }

  /** The `shareLink` of the created poll, when the answer carried one. */
  function CreatedShareLink(created: Api.Payload<Api.Poll>): Option<string> {
    match created
    case JsonBody(p) => p.shareLink
    case TextBody(_) => None
  }

  /** The share link offered after creating a private poll whose answer
      carries one. */
  function ShareOffer(origin: string, visibility: Api.Visibility, created: Api.Payload<Api.Poll>): (offer: Option<string>)
    ensures offer.Some? <==> visibility == Api.Private && Truthy(CreatedShareLink(created))
    ensures offer.Some? ==> offer.value == origin + "/share/" + CreatedShareLink(created).value
  {
    var link := CreatedShareLink(created);
    if visibility == Api.Private && Truthy(link) then Some(origin + "/share/" + link.value) else None
  }

  class CreatePollForm {
    var question: string
    var options: seq<string>
    var visibility: Api.Visibility
    var isLoading: bool

    /** The option list holds between two and ten entries. */
    predicate Valid()
      reads this
    {
      MinOptions <= |options| <= MaxOptions
    }

    /** An empty question, two empty options, public. */
    constructor()
      ensures Valid()
      ensures question == "" && options == ["", ""] && visibility == Api.Public && !isLoading
    {
      question := "";
      options := ["", ""];
      visibility := Api.Public;
      isLoading := false;
    }

    method HandleQuestionChange(value: string)
      requires Valid()
      modifies this
      ensures Valid()
      ensures question == value
      ensures options == old(options) && visibility == old(visibility) && isLoading == old(isLoading)
    {
      question := value;
    }

    /** Replaces the option at `index`; the length and everything else stay.
      The page calls it only for an index of a displayed option. */
    method HandleOptionChange(index: nat, value: string)
      requires Valid()
      requires index < |options|
      modifies this
      ensures Valid()
      ensures options == old(options)[index := value]
      ensures question == old(question) && visibility == old(visibility) && isLoading == old(isLoading)
    {
      options := options[index := value];
    }

    /** Appends an empty option while there are fewer than ten, else does
      nothing. */
    method AddOption()
      requires Valid()
      modifies this
      ensures Valid()
      ensures options == if |old(options)| < MaxOptions then old(options) + [""] else old(options)
      ensures question == old(question) && visibility == old(visibility) && isLoading == old(isLoading)
    {
      if |options| < MaxOptions {
        options := options + [""];
      }
    }

    /** `options.filter((_, i) => i !== index)` while there are more than two:
      only the entry at `index` goes (none when `index` is past the end) and
      the others keep their order; with two entries nothing happens. */
    method RemoveOption(index: nat)
      requires Valid()
      modifies this
      ensures Valid()
      ensures options ==
        if |old(options)| > MinOptions && index < |old(options)|
        then old(options)[..index] + old(options)[index + 1..]
        else old(options)
      ensures question == old(question) && visibility == old(visibility) && isLoading == old(isLoading)
    {
      if |options| > MinOptions && index < |options| {
        options := options[..index] + options[index + 1..];
      }
    }

    method HandleVisibilityChange(v: Api.Visibility)
      requires Valid()
      modifies this
      ensures Valid()
      ensures visibility == v
      ensures question == old(question) && options == old(options) && isLoading == old(isLoading)
    {
      visibility := v;
    }

    /** `handleSubmit`. A failed check shows its message and sends nothing.
      Otherwise the validated body is sent; success leads to the dashboard
      and, for a private poll whose answer carries a share link, offers that
      link; failure shows the classified message. Loading ends after every
      attempt that sent something. The form itself is not changed. */
    method HandleSubmit(origin: string, outcome: Result<Api.Payload<Api.Poll>>)
      returns (call: Option<Api.PollsCall>, result: SubmitOutcome)
      requires Valid()
      modifies this
      ensures Valid()
      ensures question == old(question) && options == old(options) && visibility == old(visibility)
      ensures Validate(question, options, visibility).Err? ==>
        && call.None? && result == Rejected(Validate(question, options, visibility).message)
        && isLoading == old(isLoading)
      ensures Validate(question, options, visibility).Ok? ==>
        && call == Some(Api.CreatePoll(Validate(question, options, visibility).value))
        && !isLoading
        && result == (if outcome.Ok? then Created(ShareOffer(origin, visibility, outcome.value), DashboardRoute)
                      else Failed(CreateErrorToast(outcome.message)))
    {
      var checked := Validate(question, options, visibility);
      if checked.Err? {
        call, result := None, Rejected(checked.message);
      } else {
        isLoading := true;
        call := Some(Api.CreatePoll(checked.value));
        if outcome.Ok? {
          result := Created(ShareOffer(origin, visibility, outcome.value), DashboardRoute);
        } else {
          result := Failed(CreateErrorToast(outcome.message));
        }
        isLoading := false;
      }
    }
  }
}
