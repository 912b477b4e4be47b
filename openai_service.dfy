/**
 * What `parseRevenueStatementWithAI` (project/src/services/openaiService.ts)
 * does with the model's answer: strip the Markdown fences, parse, check the
 * record's structure, repair it in place with defaults, and turn every
 * failure into one user-facing message; with the progress it reports on the
 * way. The API client, the network call and `JSON.parse` are inputs: the
 * call's outcome is a `Completion`, the parser a function to `ParseOutcome`.
 */
module OpenAIService {
  import opened Options
  import opened Text
  import opened Json

  // ---------------------------------------------------------------------
  // Fence stripping
  // ---------------------------------------------------------------------

  /** Three backticks start at `i`. */
  predicate TicksAt(s: string, i: nat) {
    i + 3 <= |s| && s[i] == '`' && s[i + 1] == '`' && s[i + 2] == '`'
  }

  /** "```json" starts at `i`. */
  predicate JsonFenceAt(s: string, i: nat) {
    TicksAt(s, i) && i + 7 <= |s| && s[i + 3] == 'j' && s[i + 4] == 's' && s[i + 5] == 'o' && s[i + 6] == 'n'
  }

  /**
   * The length of the match of `/```json\n?|\n?```/` at `i`, the
   * alternatives tried in order and `\n?` greedy; 0 when neither matches.
   */
  function FenceAt(s: string, i: nat): (k: nat)
    requires i <= |s|
    ensures k == 0 || (3 <= k <= 8 && i + k <= |s|)
    ensures k > 0 ==> s[i] == '`' || (s[i] == '\n' && i + 1 < |s| && s[i + 1] == '`')
  {
    if JsonFenceAt(s, i) then
      if i + 7 < |s| && s[i + 7] == '\n' then 8 else 7
    else if i < |s| && s[i] == '\n' && TicksAt(s, i + 1) then 4
    else if TicksAt(s, i) then 3
    else 0
  }

  /** `replace(/```json\n?|\n?```/g, '')` from position `i` on: every fence dropped, every other character kept. */
  function StripFences(s: string, i: nat): string
    requires i <= |s|
    decreases |s| - i
  {
    if i == |s| then ""
    else
      var k := FenceAt(s, i);
      if k > 0 then StripFences(s, i + k) else [s[i]] + StripFences(s, i + 1)
  }

  /** `response.trim().replace(/```json\n?|\n?```/g, '')`. */
  function CleanResponse(response: string): string {
    StripFences(Trim(response), 0)
  }

  /** Where no fence starts, stripping copies the characters through. */
  lemma {:induction false} StripKeepsPlain(s: string, i: nat, j: nat)
    requires i <= j <= |s|
    requires forall p :: i <= p < j ==> FenceAt(s, p) == 0
    ensures StripFences(s, i) == s[i..j] + StripFences(s, j)
    decreases j - i
  {
    if i < j {
      StripPlainStep(s, i);
      StripKeepsPlain(s, i + 1, j);
      var rest := StripFences(s, j);
      assert s[i..j] + rest == [s[i]] + (s[i + 1..j] + rest) by {
        assert s[i..j] == [s[i]] + s[i + 1..j];
      }
    }
  }

  /** One character that starts no fence is kept. */
  lemma StripPlainStep(s: string, i: nat)
    requires i < |s| && FenceAt(s, i) == 0
    ensures StripFences(s, i) == [s[i]] + StripFences(s, i + 1)
  {
  }

  /** Text without a backtick is only trimmed. */
  lemma CleanResponseWithoutBackticks(response: string)
    requires '`' !in response
    ensures CleanResponse(response) == Trim(response)
  {
    var t := Trim(response);
    forall p | 0 <= p < |t| ensures FenceAt(t, p) == 0 {
      if t[p] == '`' {
        TrimWithin(response, t[p]);
      }
      if p + 1 < |t| && t[p + 1] == '`' {
        TrimWithin(response, t[p + 1]);
      }
    }
    StripKeepsPlain(t, 0, |t|);
    assert t[0..|t|] == t;
  }

  /** A backtick-free answer wrapped in a ```json fence comes back exactly. */
  lemma CleanResponseOfFencedJson(body: string)
    requires '`' !in body
    ensures CleanResponse("```json\n" + body + "\n```") == body
  {
    var t := "```json\n" + body + "\n```";
    var n := |body|;
    assert Trim(t) == t;
    assert JsonFenceAt(t, 0) && t[7] == '\n';
    assert FenceAt(t, 0) == 8;
    forall p | 8 <= p < 8 + n ensures FenceAt(t, p) == 0 {
      assert t[p] == body[p - 8];
      if p + 1 < 8 + n {
        assert t[p + 1] == body[p + 1 - 8];
      } else {
        assert t[p + 1] == '\n';
      }
    }
    StripKeepsPlain(t, 8, 8 + n);
    assert t[8..8 + n] == body;
    assert t[8 + n] == '\n' && TicksAt(t, 8 + n + 1);
    assert FenceAt(t, 8 + n) == 4;
  }

  // ---------------------------------------------------------------------
  // Structure check and repair
  // ---------------------------------------------------------------------

  /**
   * The structure check: company and period truthy, totalRevenue a number.
   * `null` throws a TypeError at the first property read, which fails the
   * check just the same.
   */
  predicate Accepts(v: Json) {
    && Property(v, "company").Some? && Truthy(Property(v, "company").value)
    && Property(v, "period").Some? && Truthy(Property(v, "period").value)
    && Property(v, "totalRevenue").Some? && IsNumber(Property(v, "totalRevenue").value)
  }

  /** Only an object can pass: any other value has no such properties. */
  lemma AcceptsOnlyObjects(v: Json)
    requires Accepts(v)
    ensures v.JObject?
    ensures Truthy(Field(v.fields, "company")) && Truthy(Field(v.fields, "period"))
    ensures IsNumber(Field(v.fields, "totalRevenue"))
  {
  }

  /** `typeof v === 'number' ? v : fallback`, as a number. */
  function NumberOr(v: Option<Json>, fallback: real): real {
    if IsNumber(v) then v.value.n else fallback
  }

  const UnknownItem := "Unknown Item"

  /** The item's description, or "Unknown Item" when it is falsy. */
  function ItemDescription(p: Option<Json>): (d: Json)
    ensures Truthy(Some(d))
  {
    if Truthy(p) then p.value else JString(UnknownItem)
  }

  /**
   * One line item of the `map`, with the rate taken, as written, from
   * `item.amount || 0` when it is not a number: a truthy amount of any type
   * becomes the rate. `None` stands for the TypeError a `null` item raises.
   */
  function RepairItemAsWritten(item: Json): (r: Option<Json>)
    ensures r.None? <==> item.JNull?
  {
    match Property(item, "description")
    case None => None
    case Some(description) =>
      var quantity, rate, amount := Property(item, "quantity").value, Property(item, "rate").value,
                                    Property(item, "amount").value;
      Some(JObject(map[
        "description" := ItemDescription(description),
        "quantity" := JNumber(NumberOr(quantity, 1.0)),
        "rate" := if IsNumber(rate) then rate.value else if Truthy(amount) then amount.value else JNumber(0.0),
        "amount" := JNumber(NumberOr(amount, 0.0))]))
  }

  /**
   * The items on which the rate fallback lets a non-number through: the rate
   * is not a number and the amount is truthy but not a number either.
   */
  predicate RateLeaks(item: Json) {
    && !item.JNull?
    && !IsNumber(Property(item, "rate").value)
    && Truthy(Property(item, "amount").value)
    && !IsNumber(Property(item, "amount").value)
  }

  /** A repaired item is exactly four fields: a truthy description and three numbers. */
  predicate WellFormedItem(v: Json) {
    && v.JObject? && v.fields.Keys == {"description", "quantity", "rate", "amount"}
    && Truthy(Some(v.fields["description"]))
    && v.fields["quantity"].JNumber? && v.fields["rate"].JNumber? && v.fields["amount"].JNumber?
  }

  /**
   * The repair as written: four fields; a truthy description, a numeric
   * quantity, rate and amount are kept; a missing quantity is 1 and a missing
   * amount 0; a non-numeric rate becomes the original amount when that is
   * truthy, whatever its type, and 0 otherwise. The item is well formed
   * exactly when the rate does not leak.
   */
  lemma RepairItemAsWrittenSpec(item: Json)
    requires !item.JNull?
    ensures var r, rate, amount := RepairItemAsWritten(item).value, Property(item, "rate").value,
                                   Property(item, "amount").value;
      && r.JObject? && r.fields.Keys == {"description", "quantity", "rate", "amount"}
      && Truthy(Some(r.fields["description"]))
      && r.fields["quantity"].JNumber? && r.fields["amount"].JNumber?
      && (forall k :: k in {"quantity", "rate", "amount"} && IsNumber(Property(item, k).value)
                      ==> r.fields[k] == Property(item, k).value.value)
      && (Truthy(Property(item, "description").value) ==> r.fields["description"] == Property(item, "description").value.value)
      && (!IsNumber(Property(item, "quantity").value) ==> r.fields["quantity"] == JNumber(1.0))
      && (!IsNumber(amount) ==> r.fields["amount"] == JNumber(0.0))
      && (!IsNumber(rate) && Truthy(amount) ==> r.fields["rate"] == amount.value)
      && (!IsNumber(rate) && !Truthy(amount) ==> r.fields["rate"] == JNumber(0.0))
      && (WellFormedItem(r) <==> !RateLeaks(item))
  {
    var r := RepairItemAsWritten(item).value;
    assert r.fields.Keys == {"description", "quantity", "rate", "amount"};
  }

  /**
   * Repairing a repaired item changes nothing exactly when its rate did not
   * leak; a leaked rate is turned into 0 by the second repair.
   */
  lemma RepairItemAsWrittenIdempotent(item: Json)
    requires !item.JNull?
    ensures RepairItemAsWritten(RepairItemAsWritten(item).value) == RepairItemAsWritten(item) <==> !RateLeaks(item)
  {
    var r := RepairItemAsWritten(item).value;
    RepairItemAsWrittenSpec(item);
    var rr := RepairItemAsWritten(r).value;
    if RateLeaks(item) {
      assert rr.fields["rate"] == JNumber(0.0);
      assert !r.fields["rate"].JNumber?;
    } else {
      assert rr.fields == r.fields;
    }
  }

  /** An item whose amount is the string "12.50" and which has no rate. */
  const StringAmountItem := JObject(map["description" := JString("Gas"), "amount" := JString("12.50")])

  /**
   * As written, a string amount becomes the rate, so the repaired item is
   * not numeric, and repairing it again turns that rate into 0.
   */
  lemma RateLeakAsWritten()
    ensures RateLeaks(StringAmountItem)
    ensures var once := RepairItemAsWritten(StringAmountItem).value;
      && once.fields["rate"] == JString("12.50")
      && RepairItemAsWritten(once).value.fields["rate"] == JNumber(0.0)
      && RepairItemAsWritten(once) != Some(once)
  {
    var once := RepairItemAsWritten(StringAmountItem).value;
    assert once.fields["amount"] == JNumber(0.0);
    var twice := RepairItemAsWritten(once).value;
    assert twice.fields["rate"] == JNumber(0.0);
  }

  /**
   * The intended repair of one line item: a missing rate falls back to the
   * repaired (numeric) amount. `None` stands for the TypeError of a `null` item.
   */
  function RepairItem(item: Json): (r: Option<Json>)
    ensures r.None? <==> item.JNull?
  {
    match Property(item, "description")
    case None => None
    case Some(description) =>
      var quantity, rate, amount := Property(item, "quantity").value, Property(item, "rate").value,
                                    Property(item, "amount").value;
      Some(JObject(map[
        "description" := ItemDescription(description),
        "quantity" := JNumber(NumberOr(quantity, 1.0)),
        "rate" := JNumber(NumberOr(rate, NumberOr(amount, 0.0))),
        "amount" := JNumber(NumberOr(amount, 0.0))]))
  }

  /**
   * The intended repair makes every item well formed; fields that were
   * already numbers, and a truthy description, are kept; a missing quantity
   * is 1, a missing amount 0, and a missing rate the amount.
   */
  lemma RepairItemSpec(item: Json)
    requires !item.JNull?
    ensures var r := RepairItem(item).value;
      && WellFormedItem(r)
      && (forall k :: k in {"quantity", "rate", "amount"} && IsNumber(Property(item, k).value)
                      ==> r.fields[k] == Property(item, k).value.value)
      && (Truthy(Property(item, "description").value) ==> r.fields["description"] == Property(item, "description").value.value)
      && (!IsNumber(Property(item, "quantity").value) ==> r.fields["quantity"] == JNumber(1.0))
      && (!IsNumber(Property(item, "amount").value) ==> r.fields["amount"] == JNumber(0.0))
      && (!IsNumber(Property(item, "rate").value) ==> r.fields["rate"] == r.fields["amount"])
  {
    var r := RepairItem(item).value;
    assert r.fields.Keys == {"description", "quantity", "rate", "amount"};
  }

  /** Repairing an item the intended way twice changes nothing. */
  lemma RepairItemIdempotent(item: Json)
    requires !item.JNull?
    ensures RepairItem(RepairItem(item).value) == RepairItem(item)
  {
    var r := RepairItem(item).value;
    RepairItemSpec(item);
    var rr := RepairItem(r).value;
    assert rr.fields == r.fields;
  }

  /** The intended repair agrees with the code as written exactly on the items whose rate does not leak. */
  lemma RepairItemAgreesUnlessLeak(item: Json)
    requires !item.JNull?
    ensures RepairItem(item) == RepairItemAsWritten(item) <==> !RateLeaks(item)
  {
    var r, w := RepairItem(item).value, RepairItemAsWritten(item).value;
    RepairItemSpec(item);
    RepairItemAsWrittenSpec(item);
    if RateLeaks(item) {
      assert !w.fields["rate"].JNumber?;
    } else {
      assert r.fields == w.fields;
    }
  }

  /** The `map` over the items: all repaired in order, or the TypeError of the first `null`. */
  function RepairItems(items: seq<Json>): (r: Option<seq<Json>>)
    ensures r.Some? <==> forall i :: 0 <= i < |items| ==> !items[i].JNull?
    ensures r.Some? ==> |r.value| == |items|
                        && forall i :: 0 <= i < |items| ==> Some(r.value[i]) == RepairItemAsWritten(items[i])
  {
    if forall i :: 0 <= i < |items| ==> !items[i].JNull? then
      Some(seq(|items|, i requires 0 <= i < |items| => RepairItemAsWritten(items[i]).value))
    else None
  }

  /** `parsedData.lineItems` when it is an array, and `[]` otherwise. */
  function ItemsOf(fields: map<string, Json>): seq<Json> {
    match Field(fields, "lineItems")
    case Some(JArray(elems)) => elems
    case _ => []
  }

  /**
   * The record after the in-place repair of lines 192-207, or `None` when a
   * `null` line item makes the `map` throw.
   */
  function RepairedFields(fields: map<string, Json>): (r: Option<map<string, Json>>)
    ensures r.Some? <==> RepairItems(ItemsOf(fields)).Some?
  {
    match RepairItems(ItemsOf(fields))
    case None => None
    case Some(items) =>
      var totalRevenue := NumberOr(Field(fields, "totalRevenue"), 0.0);
      var taxes := NumberOr(Field(fields, "taxes"), 0.0);
      var netRevenue := NumberOr(Field(fields, "netRevenue"), totalRevenue - taxes);
      Some(fields["lineItems" := JArray(items)]["totalRevenue" := JNumber(totalRevenue)]
                 ["taxes" := JNumber(taxes)]["netRevenue" := JNumber(netRevenue)])
  }

  const RecordKeys: set<string> := {"lineItems", "totalRevenue", "taxes", "netRevenue"}

  /**
   * The repaired record keeps the item count and order, repairs every item
   * as written (well formed exactly when its rate does not leak), defaults
   * taxes to 0 and netRevenue to totalRevenue − taxes, keeps every number
   * that was already there and leaves every other field alone.
   */
  lemma RepairedFieldsSpec(fields: map<string, Json>)
    requires RepairedFields(fields).Some?
    ensures var r, items := RepairedFields(fields).value, ItemsOf(fields);
      && r.Keys == fields.Keys + RecordKeys
      && r["lineItems"].JArray? && |r["lineItems"].elems| == |items|
      && (forall i :: 0 <= i < |items| ==> Some(r["lineItems"].elems[i]) == RepairItemAsWritten(items[i])
                                           && (WellFormedItem(r["lineItems"].elems[i]) <==> !RateLeaks(items[i])))
      && r["totalRevenue"].JNumber? && r["taxes"].JNumber? && r["netRevenue"].JNumber?
      && (forall k :: k in RecordKeys - {"lineItems"} && IsNumber(Field(fields, k)) ==> r[k] == fields[k])
      && (!IsNumber(Field(fields, "taxes")) ==> r["taxes"] == JNumber(0.0))
      && (!IsNumber(Field(fields, "netRevenue")) ==> r["netRevenue"].n == r["totalRevenue"].n - r["taxes"].n)
      && (forall k :: k in fields && k !in RecordKeys ==> r[k] == fields[k])
  {
    var items := ItemsOf(fields);
    var repaired := RepairItems(items).value;
    forall i | 0 <= i < |items| ensures WellFormedItem(repaired[i]) <==> !RateLeaks(items[i]) {
      RepairItemAsWrittenSpec(items[i]);
    }
  }

  /**
   * A repaired record repairs to itself exactly when no item's rate leaked;
   * otherwise the second repair turns a leaked rate into 0.
   */
  lemma RepairedFieldsIdempotent(fields: map<string, Json>)
    requires RepairedFields(fields).Some?
    ensures var r, items := RepairedFields(fields).value, ItemsOf(fields);
      RepairedFields(r) == Some(r) <==> forall i :: 0 <= i < |items| ==> !RateLeaks(items[i])
  {
    var r := RepairedFields(fields).value;
    RepairedFieldsSpec(fields);
    var items := ItemsOf(fields);
    var repaired := r["lineItems"].elems;
    assert ItemsOf(r) == repaired;
    forall i | 0 <= i < |repaired|
      ensures !repaired[i].JNull?
      ensures RepairItemAsWritten(repaired[i]) == Some(repaired[i]) <==> !RateLeaks(items[i])
    {
      RepairItemAsWrittenSpec(items[i]);
      RepairItemAsWrittenIdempotent(items[i]);
    }
    var again := RepairItems(repaired).value;
    if forall i :: 0 <= i < |items| ==> !RateLeaks(items[i]) {
      assert again == repaired;
      var rr := RepairedFields(r).value;
      assert rr == r;
    } else {
      var i :| 0 <= i < |items| && RateLeaks(items[i]);
      assert again[i] != repaired[i];
      assert RepairedFields(r).value["lineItems"] == JArray(again);
    }
  }

  /** The parsed record, whose fields the repair reassigns one after another. */
  class ParsedObject {
    var fields: map<string, Json>

    constructor (fields: map<string, Json>)
      ensures this.fields == fields
    {
      this.fields := fields;
    }

    /**
     * Lines 192-207: reassign lineItems, totalRevenue, taxes and
     * netRevenue; `false`, with the record left as the throw found it, when
     * a `null` item makes the `map` throw.
     */
    method Repair() returns (ok: bool)
      modifies this
      ensures ok <==> RepairedFields(old(fields)).Some?
      ensures ok ==> fields == RepairedFields(old(fields)).value
    {
      var f := fields;
      if !(Field(f, "lineItems").Some? && Field(f, "lineItems").value.JArray?) {
        f := f["lineItems" := JArray([])];
      }
      assert ItemsOf(f) == ItemsOf(fields);
      var items := RepairItems(f["lineItems"].elems);
      if items.None? {
        fields := f;
        return false;
      }
      f := f["lineItems" := JArray(items.value)];
      f := f["totalRevenue" := JNumber(NumberOr(Field(f, "totalRevenue"), 0.0))];
      f := f["taxes" := JNumber(NumberOr(Field(f, "taxes"), 0.0))];
      f := f["netRevenue" := JNumber(NumberOr(Field(f, "netRevenue"), f["totalRevenue"].n - f["taxes"].n))];
      fields := f;
      ok := true;
    }
  }

  // ---------------------------------------------------------------------
  // Errors
  // ---------------------------------------------------------------------

  const KeyMissing := "OpenAI API key is not configured. " + "Please set up your API key first."
  const NoResponse := "No response from OpenAI"
  const InvalidStructure := "Invalid data structure returned from AI"
  const BadJson := "Failed to parse AI response as JSON"
  const QuotaExceeded := "OpenAI API quota exceeded. "
    + "Please check your OpenAI account billing and usage limits at platform.openai.com, then try again."
  const InvalidKey := "Invalid OpenAI API key. " + "Please check your API key configuration."
  const Forbidden := "OpenAI API access forbidden. " + "Please verify your API key permissions."
  const Unavailable := "OpenAI service is temporarily unavailable. " + "Please try again in a few minutes."
  const FailurePrefix := "AI parsing failed: "

  /** Whether a thrown value is an `Error` whose message contains `code`. */
  predicate MentionsCode(e: Thrown, code: string) {
    e.ErrorObject? && Contains(e.message, code)
  }

  /** The message of the error the outer `catch` throws for `e`: the first status code that matches, else the prefix. */
  function UserMessage(e: Thrown): string {
    if MentionsCode(e, "429") then QuotaExceeded
    else if MentionsCode(e, "401") then InvalidKey
    else if MentionsCode(e, "403") then Forbidden
    else if MentionsCode(e, "500") || MentionsCode(e, "502") || MentionsCode(e, "503") then Unavailable
    else FailurePrefix + e.MessageOrUnknown()
  }

  lemma FailureTextDiffers(m: string)
    ensures FailurePrefix + m != QuotaExceeded && FailurePrefix + m != InvalidKey
    ensures FailurePrefix + m != Forbidden && FailurePrefix + m != Unavailable
  {
    assert (FailurePrefix + m)[0] == 'A';
    assert (FailurePrefix + m)[1] == 'I';
  }

  /**
   * Each user message tells its case apart: it is the quota message exactly
   * when the error mentions 429, the key message exactly when it mentions
   * 401 and not 429, and so on down the chain; it starts with
   * "AI parsing failed: " exactly when no code matched.
   */
  lemma UserMessageClassifies(e: Thrown)
    ensures UserMessage(e) == QuotaExceeded <==> MentionsCode(e, "429")
    ensures UserMessage(e) == InvalidKey <==> !MentionsCode(e, "429") && MentionsCode(e, "401")
    ensures UserMessage(e) == Forbidden <==> !MentionsCode(e, "429") && !MentionsCode(e, "401") && MentionsCode(e, "403")
    ensures UserMessage(e) == Unavailable
            <==> !MentionsCode(e, "429") && !MentionsCode(e, "401") && !MentionsCode(e, "403")
                 && (MentionsCode(e, "500") || MentionsCode(e, "502") || MentionsCode(e, "503"))
    ensures UserMessage(e) == FailurePrefix + e.MessageOrUnknown()
            <==> !MentionsCode(e, "429") && !MentionsCode(e, "401") && !MentionsCode(e, "403")
                 && !MentionsCode(e, "500") && !MentionsCode(e, "502") && !MentionsCode(e, "503")
  {
    FailureTextDiffers(e.MessageOrUnknown());
    assert |QuotaExceeded| == 124 && |InvalidKey| == 64 && |Forbidden| == 68 && |Unavailable| == 77;
  }

  /**
   * A message without the digits 0 to 5 mentions no status code, so it
   * reaches the caller behind the prefix; the service's own three messages
   * are such messages.
   */
  lemma PrefixedWithoutCode(m: string)
    requires forall i :: 0 <= i < |m| ==> !IsStatusDigit(m[i])
    ensures UserMessage(ErrorObject(m)) == FailurePrefix + m
  {
    NoCodeIn(m);
  }

  /** The service's own failures mention no status code and so reach the caller behind the prefix. */
  lemma OwnFailuresArePrefixed()
    ensures UserMessage(ErrorObject(KeyMissing)) == FailurePrefix + KeyMissing
    ensures UserMessage(ErrorObject(NoResponse)) == FailurePrefix + NoResponse
    ensures UserMessage(ErrorObject(BadJson)) == FailurePrefix + BadJson
  {
    KeyMissingIsPlain();
    PrefixedWithoutCode(KeyMissing);
    NoResponseIsPlain();
    PrefixedWithoutCode(NoResponse);
    BadJsonIsPlain();
    PrefixedWithoutCode(BadJson);
  }

  lemma KeyMissingIsPlain()
    ensures forall i :: 0 <= i < |KeyMissing| ==> !IsStatusDigit(KeyMissing[i])
  {
  }

  lemma NoResponseIsPlain()
    ensures forall i :: 0 <= i < |NoResponse| ==> !IsStatusDigit(NoResponse[i])
  {
  }

  lemma BadJsonIsPlain()
    ensures forall i :: 0 <= i < |BadJson| ==> !IsStatusDigit(BadJson[i])
  {
  }

  predicate IsStatusDigit(c: char) {
    '0' <= c <= '5'
  }

  /** A message without the digits 0 to 5 mentions none of the status codes. */
  lemma NoCodeIn(m: string)
    requires forall i :: 0 <= i < |m| ==> !IsStatusDigit(m[i])
    ensures !Contains(m, "429") && !Contains(m, "401") && !Contains(m, "403")
    ensures !Contains(m, "500") && !Contains(m, "502") && !Contains(m, "503")
  {
    forall code | code in ["429", "401", "403", "500", "502", "503"] ensures !Contains(m, code) {
      assert IsStatusDigit(code[0]);
      forall i | 0 <= i ensures !OccursAt(m, code, i) {
        if i + |code| <= |m| {
          assert m[i..i + |code|][0] == m[i];
        }
      }
      ContainsIff(m, code);
    }
  }

  // ---------------------------------------------------------------------
  // The whole call
  // ---------------------------------------------------------------------

  /** What the chat-completion call did: threw, or returned a message whose content may be missing. */
  datatype Completion = Threw(error: Thrown) | Returned(content: Option<string>)

  /** The progress values reported and the record returned, or the message of the error thrown. */
  datatype Outcome = Outcome(progress: seq<int>, result: Result<map<string, Json>, string>)

  /** The inner `try`: parse the cleaned answer, check it and repair it; every failure is the same error. */
  function Interpret(response: string, parse: string -> ParseOutcome): Result<map<string, Json>, string> {
    match parse(CleanResponse(response))
    case SyntaxError => Err(BadJson)
    case Parsed(v) =>
      if !Accepts(v) then Err(BadJson)
      else match RepairedFields(v.fields)
        case None => Err(BadJson)
        case Some(r) => Ok(r)
  }

  /** The outer `try` up to its `catch`: the progress reported, and the record or the value thrown. */
  function Attempt(configured: bool, completion: Completion, parse: string -> ParseOutcome)
    : (seq<int>, Result<map<string, Json>, Thrown>)
  {
    if !configured then ([25], Err(ErrorObject(KeyMissing)))
    else match completion
      case Threw(e) => ([25, 50], Err(e))
      case Returned(content) =>
        if content.None? || content.value == "" then ([25, 50, 75], Err(ErrorObject(NoResponse)))
        else match Interpret(content.value, parse)
          case Ok(r) => ([25, 50, 75, 100], Ok(r))
          case Err(m) => ([25, 50, 75], Err(ErrorObject(m)))
  }

  /** `parseRevenueStatementWithAI`: the attempt, with what it threw classified by the outer `catch`. */
  function Run(configured: bool, completion: Completion, parse: string -> ParseOutcome): Outcome {
    var (progress, result) := Attempt(configured, completion, parse);
    match result
    case Ok(r) => Outcome(progress, Ok(r))
    case Err(e) => Outcome(progress, Err(UserMessage(e)))
  }

  /** The call itself: the outer `try`, then the `catch` that classifies whatever was thrown. */
  method ParseRevenueStatementWithAI(configured: bool, completion: Completion, parse: string -> ParseOutcome)
    returns (progress: seq<int>, result: Result<map<string, Json>, string>)
    ensures Outcome(progress, result) == Run(configured, completion, parse)
  {
    var attempt;
    progress, attempt := TryParse(configured, completion, parse);
    match attempt
    case Ok(r) => result := Ok(r);
    case Err(thrown) => result := Err(UserMessage(thrown));
  }

  /**
   * The outer `try`: reports progress as it goes and repairs the parsed
   * object in place; yields the record or the value thrown.
   */
  method TryParse(configured: bool, completion: Completion, parse: string -> ParseOutcome)
    returns (progress: seq<int>, result: Result<map<string, Json>, Thrown>)
    ensures progress == Attempt(configured, completion, parse).0
    ensures result == Attempt(configured, completion, parse).1
  {
    progress := [25];
    if !configured {
      return progress, Err(ErrorObject(KeyMissing));
    }
    progress := progress + [50];
    if completion.Threw? {
      return progress, Err(completion.error);
    }
    progress := progress + [75];
    var response := completion.content;
    if response.None? || response.value == "" {
      return progress, Err(ErrorObject(NoResponse));
    }
    var answer := InterpretAnswer(response.value, parse);
    if answer.Err? {
      return progress, Err(ErrorObject(answer.error));
    }
    progress := progress + [100];
    result := Ok(answer.value);
  }

  /** The inner `try`: parse the cleaned answer, check it, repair it in place. */
  method InterpretAnswer(response: string, parse: string -> ParseOutcome)
    returns (result: Result<map<string, Json>, string>)
    ensures result == Interpret(response, parse)
  {
    var parsed := parse(CleanResponse(response));
    if parsed.SyntaxError? || !Accepts(parsed.value) {
      return Err(BadJson);
    }
    var parsedData := new ParsedObject(parsed.value.fields);
    var ok := parsedData.Repair();
    if !ok {
      return Err(BadJson);
    }
    result := Ok(parsedData.fields);
  }

  /**
   * Progress runs 25, 50, 75, 100 in that order, stopping early on a
   * failure, and reaches 100 exactly when the call succeeds.
   */
  lemma ProgressSpec(configured: bool, completion: Completion, parse: string -> ParseOutcome)
    ensures var o := Run(configured, completion, parse);
      && 1 <= |o.progress| <= 4 && o.progress == [25, 50, 75, 100][..|o.progress|]
      && (100 in o.progress <==> o.result.Ok?)
  {
    var full := [25, 50, 75, 100];
    var (progress, result) := Attempt(configured, completion, parse);
    assert progress == full[..1] || progress == full[..2] || progress == full[..3] || progress == full;
    assert progress == full <==> result.Ok?;
  }

  /**
   * A successful call returns a record that passed the structure check and
   * was repaired; a rejected structure, a syntax error and a `null` item all
   * surface as the same prefixed message, as does a missing answer.
   */
  lemma RunSpec(configured: bool, completion: Completion, parse: string -> ParseOutcome)
    ensures var o := Run(configured, completion, parse);
      && (o.result.Ok? ==>
            && configured && completion.Returned? && completion.content.Some?
            && var parsed := parse(CleanResponse(completion.content.value));
               parsed.Parsed? && Accepts(parsed.value)
               && o.result.value == RepairedFields(parsed.value.fields).value)
      && (configured && completion == Returned(None) ==> o.result == Err(FailurePrefix + NoResponse))
      && (!configured ==> o.result == Err(FailurePrefix + KeyMissing))
  {
    OwnFailuresArePrefixed();
  }

  /** An answer that does not parse, or parses to a record the check rejects, fails with the JSON message. */
  lemma RejectedAnswer(completion: Completion, parse: string -> ParseOutcome)
    requires completion.Returned? && completion.content.Some? && completion.content.value != ""
    requires var parsed := parse(CleanResponse(completion.content.value));
      !parsed.Parsed? || !Accepts(parsed.value)
    ensures Run(true, completion, parse).result == Err(FailurePrefix + BadJson)
  {
    OwnFailuresArePrefixed();
  }
}
