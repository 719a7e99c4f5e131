/**
 * The two form requests for job applications: their rule tables and the
 * way Laravel's validator reads such a table.
 *
 * Each field carries a list of rules. `required` is the only implicit rule
 * used here: it runs even when the field is missing, and fails on a missing
 * key, on null and on a string that `trim` empties. Every other rule is
 * skipped for a missing key, for a blank string, and for null when the
 * field is `nullable`; `sometimes` only says that a missing key is never
 * an error. The outcome that matters is which fields fail; the messages are
 * the framework's.
 *
 * Whether a string is a URL is decided by the framework's `url` rule; here
 * it is the parameter `isUrl`.
 */
module Requests {
  import opened Model

  datatype Rule = Required | Sometimes | Nullable | Url | Text | Max(limit: nat) | In(allowed: seq<string>)

  type RuleTable = map<string, seq<Rule>>

  const CreateStatuses: seq<string> := ["pending", "interview", "approved", "rejected", "in_progress"]

  /**
   * The update table writes `in:pending,interview, approved, rejected`; the
   * validator splits the list on commas and keeps the spaces, so the last
   * two allowed values start with a space.
   */
  const UpdateStatuses: seq<string> := ["pending", "interview", " approved", " rejected"]

  const StoreRules: RuleTable := map[
    "link" := [Required, Url],
    "title" := [Required, Text, Max(255)],
    "position" := [Required, Text, Max(255)],
    "company" := [Required, Text, Max(255)],
    "status" := [Nullable, Text, In(CreateStatuses)],
    "notes" := [Nullable, Text]
  ]

  const UpdateRules: RuleTable := map[
    "link" := [Sometimes, Url],
    "title" := [Sometimes, Text, Max(255)],
    "position" := [Sometimes, Text, Max(255)],
    "company" := [Sometimes, Text, Max(255)],
    "status" := [Nullable, Text, In(UpdateStatuses)],
    "notes" := [Nullable, Text]
  ]

  /** The characters PHP's `trim` removes. */
  predicate Trimmed(c: char) {
    c == ' ' || c == '\t' || c == '\n' || c == '\r' || c == '\0' || c == '\U{B}'
  }

  predicate Blank(s: string) {
    forall i :: 0 <= i < |s| ==> Trimmed(s[i])
  }

  function Lookup(input: Input, field: string): Option<Value> {
    if field in input then Some(input[field]) else None
  }

  /** What `required` accepts. */
  predicate Filled(v: Option<Value>) {
    match v
    case None => false
    case Some(Null) => false
    case Some(Str(s)) => !Blank(s)
    case Some(_) => true
  }

  /** Whether the non-implicit rules of a field are evaluated on `v` at all. */
  predicate Checked(rules: seq<Rule>, v: Option<Value>) {
    match v
    case None => false
    case Some(Null) => Nullable !in rules
    case Some(Str(s)) => !Blank(s)
    case Some(_) => true
  }

  /**
   * One non-implicit rule on a value that is checked. Sizes of non-strings
   * and `in` on non-strings never decide a field here: every table pairs
   * `max` and `in` with `string`, which rejects them first.
   */
  predicate Holds(rule: Rule, v: Value, isUrl: string -> bool) {
    match rule
    case Url => v.Str? && isUrl(v.s)
    case Text => v.Str?
    case Max(n) => v.Str? ==> |v.s| <= n
    case In(allowed) => v.Str? && v.s in allowed
    case _ => true
  }

  predicate Passes(rules: seq<Rule>, v: Option<Value>, isUrl: string -> bool) {
    && (Required in rules && (Sometimes !in rules || v.Some?) ==> Filled(v))
    && (Checked(rules, v) ==> forall i :: 0 <= i < |rules| ==> Holds(rules[i], v.value, isUrl))
  }

  /** The fields that fail: the keys of the error bag. */
  function Errors(rules: RuleTable, input: Input, isUrl: string -> bool): (errors: set<string>)
    ensures errors <= rules.Keys
  {
    set f | f in rules && !Passes(rules[f], Lookup(input, f), isUrl)
  }

  /** A field that is not sent fails exactly when it is `required` without `sometimes`. */
  lemma MissingFieldFails(rules: RuleTable, input: Input, isUrl: string -> bool, f: string)
    requires f in rules && f !in input
    ensures f in Errors(rules, input, isUrl) <==> Required in rules[f] && Sometimes !in rules[f]
  {
  }

  /** `$request->validated()`: the fields that have rules and were sent. */
  function Validated(rules: RuleTable, input: Input): (data: Input)
    ensures data.Keys == rules.Keys * input.Keys
    ensures forall f :: f in data ==> data[f] == input[f]
  {
    map f | f in rules && f in input :: input[f]
  }

  /** `authorize()` of both form requests: ownership is left to the policy. */
  function Authorize(): (allowed: bool)
    ensures allowed
  {
    true
  }

  // ---------------------------------------------------------------------------
  // What each kind of rule list accepts, stated without the rule machinery.

  lemma RequiredUrl(v: Option<Value>, isUrl: string -> bool)
    ensures Passes([Required, Url], v, isUrl) <==> v.Some? && v.value.Str? && !Blank(v.value.s) && isUrl(v.value.s)
  {
    var rules := [Required, Url];
    if Filled(v) && !(v.value.Str? && isUrl(v.value.s)) {
      assert !Holds(rules[1], v.value, isUrl);
    }
  }

  lemma RequiredText(v: Option<Value>, isUrl: string -> bool)
    ensures Passes([Required, Text, Max(255)], v, isUrl)
        <==> v.Some? && v.value.Str? && !Blank(v.value.s) && |v.value.s| <= 255
  {
    var rules := [Required, Text, Max(255)];
    if v.Some? && !v.value.Str? && Filled(v) {
      assert !Holds(rules[1], v.value, isUrl);
    }
    if v.Some? && v.value.Str? && !Blank(v.value.s) && |v.value.s| > 255 {
      assert !Holds(rules[2], v.value, isUrl);
    }
  }

  lemma SometimesUrl(v: Option<Value>, isUrl: string -> bool)
    ensures Passes([Sometimes, Url], v, isUrl)
        <==> v.None? || (v.value.Str? && (Blank(v.value.s) || isUrl(v.value.s)))
  {
    var rules := [Sometimes, Url];
    if v.Some? && !(v.value.Str? && (Blank(v.value.s) || isUrl(v.value.s))) {
      assert Checked(rules, v);
      assert !Holds(rules[1], v.value, isUrl);
    }
  }

  lemma SometimesText(v: Option<Value>, isUrl: string -> bool)
    ensures Passes([Sometimes, Text, Max(255)], v, isUrl)
        <==> v.None? || (v.value.Str? && (Blank(v.value.s) || |v.value.s| <= 255))
  {
    var rules := [Sometimes, Text, Max(255)];
    if v.Some? && !v.value.Str? {
      assert Checked(rules, v);
      assert !Holds(rules[1], v.value, isUrl);
    }
    if v.Some? && v.value.Str? && !Blank(v.value.s) && |v.value.s| > 255 {
      assert !Holds(rules[2], v.value, isUrl);
    }
  }

  lemma NullableEnum(v: Option<Value>, allowed: seq<string>, isUrl: string -> bool)
    ensures Passes([Nullable, Text, In(allowed)], v, isUrl)
        <==> v.None? || v.value.Null? || (v.value.Str? && (Blank(v.value.s) || v.value.s in allowed))
  {
    var rules := [Nullable, Text, In(allowed)];
    if v.Some? && !v.value.Null? && !v.value.Str? {
      assert !Holds(rules[1], v.value, isUrl);
    }
    if v.Some? && v.value.Str? && !Blank(v.value.s) && v.value.s !in allowed {
      assert !Holds(rules[2], v.value, isUrl);
    }
  }

  lemma NullableText(v: Option<Value>, isUrl: string -> bool)
    ensures Passes([Nullable, Text], v, isUrl) <==> v.None? || v.value.Null? || v.value.Str?
  {
    var rules := [Nullable, Text];
    if v.Some? && !v.value.Null? && !v.value.Str? {
      assert !Holds(rules[1], v.value, isUrl);
    }
  }

  // ---------------------------------------------------------------------------
  // The create request.

  /** Field by field, which create payloads fail, and nothing outside the table ever does. */
  lemma StoreErrorsByField(input: Input, isUrl: string -> bool)
    ensures var errors := Errors(StoreRules, input, isUrl);
      && errors <= {"link", "title", "position", "company", "status", "notes"}
      && ("link" in errors <==>
            !("link" in input && input["link"].Str? && !Blank(input["link"].s) && isUrl(input["link"].s)))
      && (forall f :: f in {"title", "position", "company"} ==>
            (f in errors <==> !(f in input && input[f].Str? && !Blank(input[f].s) && |input[f].s| <= 255)))
      && ("status" in errors <==>
            "status" in input && !input["status"].Null?
            && !(input["status"].Str? && (Blank(input["status"].s) || input["status"].s in CreateStatuses)))
      && ("notes" in errors <==> "notes" in input && !input["notes"].Null? && !input["notes"].Str?)
  {
    var errors := Errors(StoreRules, input, isUrl);
    RequiredUrl(Lookup(input, "link"), isUrl);
    forall f | f in {"title", "position", "company"}
      ensures f in errors <==> !(f in input && input[f].Str? && !Blank(input[f].s) && |input[f].s| <= 255)
    {
      assert StoreRules[f] == [Required, Text, Max(255)];
      RequiredText(Lookup(input, f), isUrl);
    }
    NullableEnum(Lookup(input, "status"), CreateStatuses, isUrl);
    NullableText(Lookup(input, "notes"), isUrl);
  }

  /** An empty, null, missing or non-URL `link` is reported under `link`. */
  lemma StoreRejectsBadLink(input: Input, isUrl: string -> bool)
    requires !isUrl("not-a-valid-url")
    requires "link" !in input || input["link"] in {Str(""), Null, Str("not-a-valid-url")}
    ensures "link" in Errors(StoreRules, input, isUrl)
  {
    RequiredUrl(Lookup(input, "link"), isUrl);
    if "link" in input && input["link"] == Str("") {
      assert Blank(input["link"].s);
    }
  }

  /** The payload every create needs at least. */
  const ValidPayload: Input := map[
    "link" := Str("https://example.com/job"),
    "title" := Str("Laracast"),
    "position" := Str("Laracast"),
    "company" := Str("Laravel"),
    "status" := Str("pending"),
    "notes" := Str("Hello thwe aplication sent")
  ]

  /** A complete payload whose link is a URL and whose status is `pending` raises no error. */
  lemma StoreAcceptsValidPayload(isUrl: string -> bool)
    requires isUrl("https://example.com/job")
    ensures Errors(StoreRules, ValidPayload, isUrl) == {}
  {
    ValidPayloadIsFilled();
    StoreAcceptsCompletePayload(ValidPayload, isUrl);
  }

  /**
   * A payload that sends every field as a non-blank string of at most 255
   * characters, with a URL as its link and a known status, raises no error.
   */
  lemma StoreAcceptsCompletePayload(input: Input, isUrl: string -> bool)
    requires forall f :: f in {"link", "title", "position", "company", "status", "notes"} ==>
      f in input && input[f].Str? && !Blank(input[f].s) && |input[f].s| <= 255
    requires isUrl(input["link"].s) && input["status"].s in CreateStatuses
    ensures Errors(StoreRules, input, isUrl) == {}
  {
    var errors := Errors(StoreRules, input, isUrl);
    StoreErrorsByField(input, isUrl);
    assert "link" in input && "status" in input && "notes" in input;
    assert "title" !in errors && "position" !in errors && "company" !in errors;
  }

  /** Every field of the test payload is a short non-blank string. */
  lemma ValidPayloadIsFilled()
    ensures forall f :: f in {"link", "title", "position", "company", "status", "notes"} ==>
      f in ValidPayload && ValidPayload[f].Str? && !Blank(ValidPayload[f].s) && |ValidPayload[f].s| <= 255
    ensures ValidPayload["status"].s in CreateStatuses
  {
    var input := ValidPayload;
    assert !Blank(input["link"].s) by { assert !Trimmed(input["link"].s[0]); }
    assert !Blank(input["title"].s) by { assert !Trimmed(input["title"].s[0]); }
    assert !Blank(input["position"].s) by { assert !Trimmed(input["position"].s[0]); }
    assert !Blank(input["company"].s) by { assert !Trimmed(input["company"].s[0]); }
    assert !Blank(input["status"].s) by { assert !Trimmed(input["status"].s[0]); }
    assert !Blank(input["notes"].s) by { assert !Trimmed(input["notes"].s[0]); }
  }

  // ---------------------------------------------------------------------------
  // The update request.

  /** Field by field, which update payloads fail; a field that is not sent never fails. */
  lemma UpdateErrorsByField(input: Input, isUrl: string -> bool)
    ensures var errors := Errors(UpdateRules, input, isUrl);
      && errors <= input.Keys * {"link", "title", "position", "company", "status", "notes"}
      && ("link" in errors <==>
            "link" in input && !(input["link"].Str? && (Blank(input["link"].s) || isUrl(input["link"].s))))
      && (forall f :: f in {"title", "position", "company"} ==>
            (f in errors <==> f in input && !(input[f].Str? && (Blank(input[f].s) || |input[f].s| <= 255))))
      && ("status" in errors <==>
            "status" in input && !input["status"].Null?
            && !(input["status"].Str? && (Blank(input["status"].s) || input["status"].s in UpdateStatuses)))
      && ("notes" in errors <==> "notes" in input && !input["notes"].Null? && !input["notes"].Str?)
  {
    var errors := Errors(UpdateRules, input, isUrl);
    SometimesUrl(Lookup(input, "link"), isUrl);
    forall f | f in {"title", "position", "company"}
      ensures f in errors <==> f in input && !(input[f].Str? && (Blank(input[f].s) || |input[f].s| <= 255))
    {
      assert UpdateRules[f] == [Sometimes, Text, Max(255)];
      SometimesText(Lookup(input, f), isUrl);
    }
    NullableEnum(Lookup(input, "status"), UpdateStatuses, isUrl);
    NullableText(Lookup(input, "notes"), isUrl);
  }

  /**
   * The update table's status list differs from the create table's: a
   * status of `approved`, `rejected` or `in_progress` is accepted when an
   * application is created and refused when it is updated.
   */
  lemma UpdateRefusesStatusesCreateAccepts(status: string, isUrl: string -> bool)
    requires status in {"approved", "rejected", "in_progress"}
    ensures Errors(UpdateRules, map["status" := Str(status)], isUrl) == {"status"}
    ensures Errors(StoreRules, map["status" := Str(status)], isUrl) * {"status"} == {}
  {
    var input := map["status" := Str(status)];
    assert !Blank(status) by { assert !Trimmed(status[0]); }
    assert Errors(UpdateRules, input, isUrl) == {"status"} by {
      UpdateErrorsByField(input, isUrl);
      assert status !in UpdateStatuses;
    }
    assert "status" !in Errors(StoreRules, input, isUrl) by {
      StoreErrorsByField(input, isUrl);
      assert status in CreateStatuses;
    }
  }

  /** Neither request lets `user_id` into the validated data. */
  lemma ValidatedHasNoOwner(input: Input)
    ensures "user_id" !in Validated(StoreRules, input)
    ensures "user_id" !in Validated(UpdateRules, input)
    ensures Validated(UpdateRules, input).Keys <= Fillable
  {
  }
}
