/** The two JSON Schemas of the planner and executor wire formats.

    Each schema is written twice: once as the keyword data the source declares
    (`ToolIntentsSchema`, `PlanningSchema`), evaluated by a small interpreter of the JSON
    Schema (draft 2020-12) keywords those literals use, and once as a direct predicate
    (`ToolIntents`, `PlanningOutput`). The lemmas `ToolIntentsSchemaMeaning` and
    `PlanningSchemaMeaning` prove that the two agree on every JSON value. The regular
    expression engine that `patternProperties` needs stays abstract (`Search`); the
    planning lemma relies only on the fact that it finds the placeholder pattern where
    `ContainsPlaceholder` does, whose `\d` is Python's: any Unicode decimal digit. The
    `description` annotations carry no assertion and are left out of the keyword data. */
module Schemas {
  import opened Common
  import opened Json

  // ---------------------------------------------------------------------------
  // Keyword data and its evaluator

  /** The `type` keyword values the two schemas use. */
  datatype TypeName = TObject | TArray | TString | TInteger

  /** `additionalProperties`: the empty schema `{}` (or no keyword) allows anything,
      `false` allows nothing. These are the only two forms the schemas use. */
  datatype Additional = AllowAny | Forbid

  datatype Schema = Schema(
    typ: Option<TypeName>,
    required: seq<string>,
    properties: seq<(string, Schema)>,
    patternProperties: seq<(string, Schema)>,
    additional: Additional,
    items: Option<Schema>,
    minLength: Option<nat>,
    minItems: Option<nat>,
    minimum: Option<int>)

  /** `re.search(pattern, key) is not None`, as `jsonschema` applies a `patternProperties`
      pattern: unanchored. */
  type Search = (string, string) -> bool

  /** The empty schema `{}`: every instance is valid. */
  const EmptySchema := Schema(None, [], [], [], AllowAny, None, None, None, None)

  /** `{"type": "string", "minLength": 1}` */
  const NonEmptyStringSchema := EmptySchema.(typ := Some(TString), minLength := Some(1))

  /** `{"type": "object"}` */
  const ObjectSchema := EmptySchema.(typ := Some(TObject))

  /** The `items` schema of `TOOL_INTENTS_SCHEMA`. */
  const IntentSchema := EmptySchema.(
    typ := Some(TObject),
    required := ["server", "tool"],
    properties := [("server", NonEmptyStringSchema), ("tool", NonEmptyStringSchema), ("args", ObjectSchema)],
    additional := Forbid)

  /** `TOOL_INTENTS_SCHEMA`. */
  const ToolIntentsSchema := EmptySchema.(typ := Some(TArray), items := Some(IntentSchema))

  /** The pattern `\[\[P\d+\]\]` of `opaque_values`. */
  const PlaceholderPattern := "\\[\\[P\\d+\\]\\]"

  const IdSchema := EmptySchema.(typ := Some(TInteger), minimum := Some(1))

  const OpaqueValuesSchema := EmptySchema.(
    typ := Some(TObject),
    patternProperties := [(PlaceholderPattern, EmptySchema.(typ := Some(TString)))])

  /** `suggested_tools`: the `minLength` written on the array is kept, although it only
      constrains strings and so has no effect here. */
  const SuggestedToolsSchema := EmptySchema.(typ := Some(TArray), items := Some(NonEmptyStringSchema), minLength := Some(1))

  const SubPromptSchema := EmptySchema.(
    typ := Some(TObject),
    required := ["id", "content", "suggested_tools"],
    properties := [("id", IdSchema), ("content", NonEmptyStringSchema),
                   ("opaque_values", OpaqueValuesSchema), ("suggested_tools", SuggestedToolsSchema)])

  const SubPromptsSchema := EmptySchema.(typ := Some(TArray), items := Some(SubPromptSchema), minItems := Some(1))

  /** `PLANNING_LLM_SCHEMA`. */
  const PlanningSchema := EmptySchema.(
    typ := Some(TObject),
    required := ["original_prompt", "sub_prompts"],
    properties := [("original_prompt", NonEmptyStringSchema), ("sub_prompts", SubPromptsSchema)])

  /** JSON Schema's "integer": a number whose fractional part is zero. Booleans are not numbers. */
  predicate IsInteger(j: Json)
  {
    j.Int? || (j.Float? && j.r.Floor as real == j.r)
  }

  predicate IsNumber(j: Json)
  {
    j.Int? || j.Float?
  }

  function NumberValue(j: Json): real
    requires IsNumber(j)
  {
    if j.Int? then j.i as real else j.r
  }

  predicate TypeOk(t: Option<TypeName>, j: Json)
  {
    match t
    case None => true
    case Some(TObject) => j.Obj?
    case Some(TArray) => j.Arr?
    case Some(TString) => j.Str?
    case Some(TInteger) => IsInteger(j)
  }

  /** A key that `properties` or `patternProperties` covers, so `additionalProperties` does not. */
  predicate Declared(s: Schema, k: string, search: Search)
  {
    (exists p | p in s.properties :: p.0 == k) || (exists p | p in s.patternProperties :: search(p.0, k))
  }

  /** Validation of an instance against a schema: `type` (JSON Schema 2020-12 Validation,
      section 6.1.1), `required` (section 6.5.3), `minLength` (section 6.3.2, strings only),
      `minItems` (section 6.4.2, arrays only), `minimum` (section 6.2.4, numbers only), and
      the applicators `items`, `properties`, `patternProperties` (JSON Schema 2020-12 Core,
      section 10.3.2.2) and `additionalProperties` (JSON Schema 2020-12 Core, section
      10.3.2.3), every keyword ignoring instances of the types it does not concern. */
  predicate Validates(s: Schema, j: Json, search: Search)
    decreases s
  {
    && TypeOk(s.typ, j)
    && (j.Obj? ==> forall k | k in s.required :: HasKey(j.fields, k))
    && (j.Obj? ==> forall b, p | b in j.fields && p in s.properties && p.0 == b.0 :: Validates(p.1, b.1, search))
    && (j.Obj? ==> forall b, p | b in j.fields && p in s.patternProperties && search(p.0, b.0) :: Validates(p.1, b.1, search))
    && (j.Obj? && s.additional == Forbid ==> forall b | b in j.fields :: Declared(s, b.0, search))
    && (j.Arr? && s.items.Some? ==> forall x | x in j.items :: Validates(s.items.value, x, search))
    && (j.Str? && s.minLength.Some? ==> |j.s| >= s.minLength.value)
    && (j.Arr? && s.minItems.Some? ==> |j.items| >= s.minItems.value)
    && (IsNumber(j) && s.minimum.Some? ==> NumberValue(j) >= s.minimum.value as real)
  }

  // ---------------------------------------------------------------------------
  // The same constraints written directly

  predicate NonEmptyString(j: Json)
  {
    j.Str? && |j.s| >= 1
  }

  /** One binding of a tool-intent object: `server` and `tool` non-empty strings, `args`
      an object, and no other key. */
  predicate IntentField(b: (string, Json))
  {
    if b.0 == "server" || b.0 == "tool" then NonEmptyString(b.1)
    else b.0 == "args" && b.1.Obj?
  }

  predicate ToolIntent(j: Json)
  {
    && j.Obj?
    && HasKey(j.fields, "server") && HasKey(j.fields, "tool")
    && forall i | 0 <= i < |j.fields| :: IntentField(j.fields[i])
  }

  /** A valid executor output: an array (possibly empty) of tool intents. */
  predicate ToolIntents(j: Json)
  {
    j.Arr? && forall i | 0 <= i < |j.items| :: ToolIntent(j.items[i])
  }

  /** `n` lies in the block of ten consecutive code points that starts at `first`. */
  predicate InBlock(n: int, first: int)
  {
    first <= n < first + 10
  }

  /** Python's `\d` in a `str` pattern: any Unicode decimal digit (general category Nd), not
      only the ASCII `0`-`9` but also, for instance, the Arabic-Indic `\U{0660}`-`\U{0669}`
      or the fullwidth `\U{FF10}`-`\U{FF19}`. Category Nd is made of 68 blocks of ten
      consecutive code points in Unicode 15.0 and 15.1: the ASCII one, and the 67 that
      `OtherDecimalDigit` lists above U+065F. */
  predicate IsDigit(c: char)
  {
    if c as int < 0x660 then '0' <= c <= '9' else OtherDecimalDigit(c as int)
  }

  /** Each disjunct names the first code point of one block of category Nd. */
  predicate OtherDecimalDigit(n: int)
  {
    || InBlock(n, 0x660) || InBlock(n, 0x6F0) || InBlock(n, 0x7C0) || InBlock(n, 0x966)
    || InBlock(n, 0x9E6) || InBlock(n, 0xA66) || InBlock(n, 0xAE6) || InBlock(n, 0xB66) || InBlock(n, 0xBE6)
    || InBlock(n, 0xC66) || InBlock(n, 0xCE6) || InBlock(n, 0xD66) || InBlock(n, 0xDE6) || InBlock(n, 0xE50)
    || InBlock(n, 0xED0) || InBlock(n, 0xF20) || InBlock(n, 0x1040) || InBlock(n, 0x1090) || InBlock(n, 0x17E0)
    || InBlock(n, 0x1810) || InBlock(n, 0x1946) || InBlock(n, 0x19D0) || InBlock(n, 0x1A80) || InBlock(n, 0x1A90)
    || InBlock(n, 0x1B50) || InBlock(n, 0x1BB0) || InBlock(n, 0x1C40) || InBlock(n, 0x1C50) || InBlock(n, 0xA620)
    || InBlock(n, 0xA8D0) || InBlock(n, 0xA900) || InBlock(n, 0xA9D0) || InBlock(n, 0xA9F0) || InBlock(n, 0xAA50)
    || InBlock(n, 0xABF0) || InBlock(n, 0xFF10) || InBlock(n, 0x104A0) || InBlock(n, 0x10D30) || InBlock(n, 0x11066)
    || InBlock(n, 0x110F0) || InBlock(n, 0x11136) || InBlock(n, 0x111D0) || InBlock(n, 0x112F0) || InBlock(n, 0x11450)
    || InBlock(n, 0x114D0) || InBlock(n, 0x11650) || InBlock(n, 0x116C0) || InBlock(n, 0x11730) || InBlock(n, 0x118E0)
    || InBlock(n, 0x11950) || InBlock(n, 0x11C50) || InBlock(n, 0x11D50) || InBlock(n, 0x11DA0) || InBlock(n, 0x11F50)
    || InBlock(n, 0x16A60) || InBlock(n, 0x16AC0) || InBlock(n, 0x16B50) || InBlock(n, 0x1D7CE) || InBlock(n, 0x1D7D8)
    || InBlock(n, 0x1D7E2) || InBlock(n, 0x1D7EC) || InBlock(n, 0x1D7F6) || InBlock(n, 0x1E140) || InBlock(n, 0x1E2F0)
    || InBlock(n, 0x1E4F0) || InBlock(n, 0x1E950) || InBlock(n, 0x1FBF0)
  }

  /** The number of decimal digits in `s` from index `i` on. */
  function DigitRun(s: string, i: nat): (n: nat)
    ensures i + n <= |s| || (i >= |s| && n == 0)
    ensures forall j | i <= j < i + n :: IsDigit(s[j])
    ensures i + n < |s| ==> !IsDigit(s[i + n])
    decreases |s| - i
  {
    if i < |s| && IsDigit(s[i]) then 1 + DigitRun(s, i + 1) else 0
  }

  /** `\[\[P\d+\]\]` matches at index `i`: `[[P`, one or more digits, `]]`. Because `]`
      is not a digit, the greedy `\d+` can only succeed on the whole run of digits. */
  predicate PlaceholderAt(s: string, i: nat)
  {
    OccursAt(s, "[[P", i) && DigitRun(s, i + 3) >= 1 && OccursAt(s, "]]", i + 3 + DigitRun(s, i + 3))
  }

  /** `re.search(r"\[\[P\d+\]\]", s)` finds a match: anywhere in `s`, not only at its start. */
  predicate ContainsPlaceholder(s: string)
  {
    exists i: nat | i < |s| :: PlaceholderAt(s, i)
  }

  /** `opaque_values`: keys containing a placeholder map to strings; other keys are free. */
  predicate OpaqueValues(j: Json)
  {
    j.Obj? && forall i | 0 <= i < |j.fields| :: ContainsPlaceholder(j.fields[i].0) ==> j.fields[i].1.Str?
  }

  predicate SuggestedTools(j: Json)
  {
    j.Arr? && forall i | 0 <= i < |j.items| :: NonEmptyString(j.items[i])
  }

  predicate SubPromptField(b: (string, Json))
  {
    if b.0 == "id" then IsInteger(b.1) && NumberValue(b.1) >= 1.0
    else if b.0 == "content" then NonEmptyString(b.1)
    else if b.0 == "opaque_values" then OpaqueValues(b.1)
    else if b.0 == "suggested_tools" then SuggestedTools(b.1)
    else true
  }

  predicate SubPromptItem(j: Json)
  {
    && j.Obj?
    && HasKey(j.fields, "id") && HasKey(j.fields, "content") && HasKey(j.fields, "suggested_tools")
    && forall i | 0 <= i < |j.fields| :: SubPromptField(j.fields[i])
  }

  predicate PlanField(b: (string, Json))
  {
    if b.0 == "original_prompt" then NonEmptyString(b.1)
    else if b.0 == "sub_prompts" then
      b.1.Arr? && |b.1.items| >= 1 && forall i | 0 <= i < |b.1.items| :: SubPromptItem(b.1.items[i])
    else true
  }

  /** A valid planner output. Keys other than the declared ones are allowed at both levels. */
  predicate PlanningOutput(j: Json)
  {
    && j.Obj?
    && HasKey(j.fields, "original_prompt") && HasKey(j.fields, "sub_prompts")
    && forall i | 0 <= i < |j.fields| :: PlanField(j.fields[i])
  }

  // ---------------------------------------------------------------------------
  // The keyword data means the direct predicates

  lemma StringSchemaMeaning(j: Json, search: Search)
    ensures Validates(EmptySchema.(typ := Some(TString)), j, search) <==> j.Str?
  {
  }

  lemma NonEmptyStringSchemaMeaning(j: Json, search: Search)
    ensures Validates(NonEmptyStringSchema, j, search) <==> NonEmptyString(j)
  {
  }

  /** What `properties`, `patternProperties` and `additionalProperties` ask of one binding. */
  predicate BindingOk(s: Schema, b: (string, Json), search: Search)
  {
    && (forall p | p in s.properties && p.0 == b.0 :: Validates(p.1, b.1, search))
    && (forall p | p in s.patternProperties && search(p.0, b.0) :: Validates(p.1, b.1, search))
    && (s.additional == Forbid ==> Declared(s, b.0, search))
  }

  lemma ValidatesObject(s: Schema, j: Json, search: Search)
    requires j.Obj?
    ensures Validates(s, j, search) <==>
      TypeOk(s.typ, j) && (forall k | k in s.required :: HasKey(j.fields, k))
      && forall b | b in j.fields :: BindingOk(s, b, search)
  {
  }

  lemma IntentBindingMeaning(b: (string, Json), search: Search)
    ensures BindingOk(IntentSchema, b, search) <==> IntentField(b)
  {
    var ps := IntentSchema.properties;
    assert ps == [("server", NonEmptyStringSchema), ("tool", NonEmptyStringSchema), ("args", ObjectSchema)];
    NonEmptyStringSchemaMeaning(b.1, search);
    assert b.0 == "server" ==> ps[0] in ps;
    assert b.0 == "tool" ==> ps[1] in ps;
    assert b.0 == "args" ==> ps[2] in ps;
  }

  lemma IntentBindingsMeaning(fields: Fields, search: Search)
    ensures (forall b | b in fields :: BindingOk(IntentSchema, b, search))
        <==> forall i | 0 <= i < |fields| :: IntentField(fields[i])
  {
    forall b | b in fields ensures BindingOk(IntentSchema, b, search) <==> IntentField(b) {
      IntentBindingMeaning(b, search);
    }
    if forall i | 0 <= i < |fields| :: IntentField(fields[i]) {
      forall b | b in fields ensures IntentField(b) {
        var i :| 0 <= i < |fields| && fields[i] == b;
      }
    }
  }

  lemma IntentSchemaMeaning(j: Json, search: Search)
    ensures Validates(IntentSchema, j, search) <==> ToolIntent(j)
  {
    if j.Obj? {
      ValidatesObject(IntentSchema, j, search);
      assert IntentSchema.required == ["server", "tool"];
      assert "server" in IntentSchema.required && "tool" in IntentSchema.required;
      IntentBindingsMeaning(j.fields, search);
    }
  }

  /** `TOOL_INTENTS_SCHEMA` accepts exactly the arrays of tool intents. */
  lemma ToolIntentsSchemaMeaning(j: Json, search: Search)
    ensures Validates(ToolIntentsSchema, j, search) <==> ToolIntents(j)
  {
    if j.Arr? {
      forall x | x in j.items ensures Validates(IntentSchema, x, search) <==> ToolIntent(x) {
        IntentSchemaMeaning(x, search);
      }
      assert (forall x | x in j.items :: ToolIntent(x)) <==> (forall i | 0 <= i < |j.items| :: ToolIntent(j.items[i])) by {
        if forall i | 0 <= i < |j.items| :: ToolIntent(j.items[i]) {
          forall x | x in j.items ensures ToolIntent(x) {
            var i :| 0 <= i < |j.items| && j.items[i] == x;
          }
        }
      }
    }
  }

  /** The regular expression engine finds `\[\[P\d+\]\]` in exactly the keys where a
      placeholder occurs. */
  ghost predicate SearchesPlaceholders(search: Search)
  {
    forall k :: search(PlaceholderPattern, k) == ContainsPlaceholder(k)
  }

  lemma IdSchemaMeaning(j: Json, search: Search)
    ensures Validates(IdSchema, j, search) <==> IsInteger(j) && NumberValue(j) >= 1.0
  {
  }

  lemma OpaqueValuesSchemaMeaning(j: Json, search: Search)
    requires SearchesPlaceholders(search)
    ensures Validates(OpaqueValuesSchema, j, search) <==> OpaqueValues(j)
  {
    if j.Obj? {
      ValidatesObject(OpaqueValuesSchema, j, search);
      var pp := OpaqueValuesSchema.patternProperties;
      assert pp == [(PlaceholderPattern, EmptySchema.(typ := Some(TString)))];
      assert pp[0] in pp;
      forall b | b in j.fields
        ensures BindingOk(OpaqueValuesSchema, b, search) <==> (ContainsPlaceholder(b.0) ==> b.1.Str?)
      {
        assert search(PlaceholderPattern, b.0) == ContainsPlaceholder(b.0);
        StringSchemaMeaning(b.1, search);
      }
      if forall i | 0 <= i < |j.fields| :: ContainsPlaceholder(j.fields[i].0) ==> j.fields[i].1.Str? {
        forall b | b in j.fields ensures ContainsPlaceholder(b.0) ==> b.1.Str? {
          var i :| 0 <= i < |j.fields| && j.fields[i] == b;
        }
      }
    }
  }

  lemma SuggestedToolsSchemaMeaning(j: Json, search: Search)
    ensures Validates(SuggestedToolsSchema, j, search) <==> SuggestedTools(j)
  {
    if j.Arr? {
      forall x | x in j.items ensures Validates(NonEmptyStringSchema, x, search) <==> NonEmptyString(x) {
        NonEmptyStringSchemaMeaning(x, search);
      }
      if forall i | 0 <= i < |j.items| :: NonEmptyString(j.items[i]) {
        forall x | x in j.items ensures NonEmptyString(x) {
          var i :| 0 <= i < |j.items| && j.items[i] == x;
        }
      }
    }
  }

  lemma SubPromptBindingMeaning(b: (string, Json), search: Search)
    requires SearchesPlaceholders(search)
    ensures BindingOk(SubPromptSchema, b, search) <==> SubPromptField(b)
  {
    var ps := SubPromptSchema.properties;
    assert ps == [("id", IdSchema), ("content", NonEmptyStringSchema),
                  ("opaque_values", OpaqueValuesSchema), ("suggested_tools", SuggestedToolsSchema)];
    if b.0 == "id" {
      assert ps[0] in ps;
      IdSchemaMeaning(b.1, search);
    } else if b.0 == "content" {
      assert ps[1] in ps;
      NonEmptyStringSchemaMeaning(b.1, search);
    } else if b.0 == "opaque_values" {
      assert ps[2] in ps;
      OpaqueValuesSchemaMeaning(b.1, search);
    } else if b.0 == "suggested_tools" {
      assert ps[3] in ps;
      SuggestedToolsSchemaMeaning(b.1, search);
    }
  }

  lemma SubPromptBindingsMeaning(fields: Fields, search: Search)
    requires SearchesPlaceholders(search)
    ensures (forall b | b in fields :: BindingOk(SubPromptSchema, b, search))
        <==> forall i | 0 <= i < |fields| :: SubPromptField(fields[i])
  {
    forall b | b in fields ensures BindingOk(SubPromptSchema, b, search) <==> SubPromptField(b) {
      SubPromptBindingMeaning(b, search);
    }
    if forall i | 0 <= i < |fields| :: SubPromptField(fields[i]) {
      forall b | b in fields ensures SubPromptField(b) {
        var i :| 0 <= i < |fields| && fields[i] == b;
      }
    }
  }

  lemma SubPromptSchemaMeaning(j: Json, search: Search)
    requires SearchesPlaceholders(search)
    ensures Validates(SubPromptSchema, j, search) <==> SubPromptItem(j)
  {
    if j.Obj? {
      ValidatesObject(SubPromptSchema, j, search);
      var rq := SubPromptSchema.required;
      assert rq == ["id", "content", "suggested_tools"];
      assert "id" in rq && "content" in rq && "suggested_tools" in rq;
      SubPromptBindingsMeaning(j.fields, search);
    }
  }

  lemma SubPromptsSchemaMeaning(j: Json, search: Search)
    requires SearchesPlaceholders(search)
    ensures Validates(SubPromptsSchema, j, search) <==>
      j.Arr? && |j.items| >= 1 && forall i | 0 <= i < |j.items| :: SubPromptItem(j.items[i])
  {
    if j.Arr? {
      forall x | x in j.items ensures Validates(SubPromptSchema, x, search) <==> SubPromptItem(x) {
        SubPromptSchemaMeaning(x, search);
      }
      if forall i | 0 <= i < |j.items| :: SubPromptItem(j.items[i]) {
        forall x | x in j.items ensures SubPromptItem(x) {
          var i :| 0 <= i < |j.items| && j.items[i] == x;
        }
      }
    }
  }

  lemma PlanBindingMeaning(b: (string, Json), search: Search)
    requires SearchesPlaceholders(search)
    ensures BindingOk(PlanningSchema, b, search) <==> PlanField(b)
  {
    var ps := PlanningSchema.properties;
    assert ps == [("original_prompt", NonEmptyStringSchema), ("sub_prompts", SubPromptsSchema)];
    assert ps[0] in ps && ps[1] in ps;
    NonEmptyStringSchemaMeaning(b.1, search);
    SubPromptsSchemaMeaning(b.1, search);
  }

  lemma PlanBindingsMeaning(fields: Fields, search: Search)
    requires SearchesPlaceholders(search)
    ensures (forall b | b in fields :: BindingOk(PlanningSchema, b, search))
        <==> forall i | 0 <= i < |fields| :: PlanField(fields[i])
  {
    forall b | b in fields ensures BindingOk(PlanningSchema, b, search) <==> PlanField(b) {
      PlanBindingMeaning(b, search);
    }
    if forall i | 0 <= i < |fields| :: PlanField(fields[i]) {
      forall b | b in fields ensures PlanField(b) {
        var i :| 0 <= i < |fields| && fields[i] == b;
      }
    }
  }

  /** `PLANNING_LLM_SCHEMA` accepts exactly the planner outputs described by `PlanningOutput`. */
  lemma PlanningSchemaMeaning(j: Json, search: Search)
    requires SearchesPlaceholders(search)
    ensures Validates(PlanningSchema, j, search) <==> PlanningOutput(j)
  {
    if j.Obj? {
      ValidatesObject(PlanningSchema, j, search);
      var rq := PlanningSchema.required;
      assert rq == ["original_prompt", "sub_prompts"];
      assert "original_prompt" in rq && "sub_prompts" in rq;
      PlanBindingsMeaning(j.fields, search);
    }
  }

  // ---------------------------------------------------------------------------
  // Consequences of the two schemas

  /** There is no `minItems` on `TOOL_INTENTS_SCHEMA`: the empty array is valid. */
  lemma EmptyIntentArrayValid(search: Search)
    ensures Validates(ToolIntentsSchema, Arr([]), search)
  {
    ToolIntentsSchemaMeaning(Arr([]), search);
  }

  /** One element with a key other than `server`, `tool` or `args` invalidates the whole array. */
  lemma ExtraKeyRejectsArray(j: Json, i: nat, k: string, search: Search)
    requires j.Arr? && i < |j.items| && j.items[i].Obj?
    requires HasKey(j.items[i].fields, k) && k != "server" && k != "tool" && k != "args"
    ensures !Validates(ToolIntentsSchema, j, search)
  {
    ToolIntentsSchemaMeaning(j, search);
    var x := j.items[i];
    GetFound(x.fields, k);
    var m :| 0 <= m < |x.fields| && x.fields[m].0 == k;
    assert !IntentField(x.fields[m]);
  }

  /** An element without `server` or without `tool` invalidates the array. */
  lemma MissingKeyRejectsArray(j: Json, i: nat, search: Search)
    requires j.Arr? && i < |j.items|
    requires !j.items[i].Obj? || !HasKey(j.items[i].fields, "server") || !HasKey(j.items[i].fields, "tool")
    ensures !Validates(ToolIntentsSchema, j, search)
  {
    ToolIntentsSchemaMeaning(j, search);
    assert !ToolIntent(j.items[i]);
  }

  /** A `server` or `tool` bound to anything but a non-empty string invalidates the array;
      so does an `args` that is not an object. */
  lemma BadFieldRejectsArray(j: Json, i: nat, m: nat, search: Search)
    requires j.Arr? && i < |j.items| && j.items[i].Obj? && m < |j.items[i].fields|
    requires var b := j.items[i].fields[m];
      ((b.0 == "server" || b.0 == "tool") && !(b.1.Str? && b.1.s != "")) || (b.0 == "args" && !b.1.Obj?)
    ensures !Validates(ToolIntentsSchema, j, search)
  {
    ToolIntentsSchemaMeaning(j, search);
    assert !IntentField(j.items[i].fields[m]);
  }

  /** `args` may be left out. */
  lemma ArgsOptional(server: string, tool: string, search: Search)
    requires server != "" && tool != ""
    ensures Validates(ToolIntentsSchema, Arr([Obj([("server", Str(server)), ("tool", Str(tool))])]), search)
  {
    var fs := [("server", Str(server)), ("tool", Str(tool))];
    var x := Obj(fs);
    GetAt(fs, 0);
    GetAt(fs, 1);
    assert IntentField(fs[0]) && IntentField(fs[1]);
    assert ToolIntent(x);
    ToolIntentsSchemaMeaning(Arr([x]), search);
  }

  /** A plan whose `sub_prompts` is the empty array is rejected (`minItems: 1`). */
  lemma EmptySubPromptsRejected(j: Json, search: Search)
    requires SearchesPlaceholders(search)
    requires j.Obj? && Get(j.fields, "sub_prompts") == Some(Arr([]))
    ensures !Validates(PlanningSchema, j, search)
  {
    PlanningSchemaMeaning(j, search);
    GetFound(j.fields, "sub_prompts");
    var m :| 0 <= m < |j.fields| && j.fields[m] == ("sub_prompts", Arr([]));
    assert !PlanField(j.fields[m]);
  }

  /** The `minLength` written on the `suggested_tools` array does not apply to arrays, so a
      sub-prompt with no suggested tools is accepted. */
  lemma EmptySuggestedToolsAccepted(search: Search)
    requires SearchesPlaceholders(search)
    ensures Validates(PlanningSchema,
      Obj([("original_prompt", Str("p")),
           ("sub_prompts", Arr([Obj([("id", Int(1)), ("content", Str("c")), ("suggested_tools", Arr([]))])]))]),
      search)
  {
    var sf := [("id", Int(1)), ("content", Str("c")), ("suggested_tools", Arr([]))];
    GetAt(sf, 0);
    GetAt(sf, 1);
    GetAt(sf, 2);
    assert SubPromptField(sf[0]) && SubPromptField(sf[1]) && SubPromptField(sf[2]);
    var sp := Obj(sf);
    assert SubPromptItem(sp);
    var pf := [("original_prompt", Str("p")), ("sub_prompts", Arr([sp]))];
    GetAt(pf, 0);
    GetAt(pf, 1);
    assert PlanField(pf[0]) && PlanField(pf[1]);
    assert PlanningOutput(Obj(pf));
    PlanningSchemaMeaning(Obj(pf), search);
  }

  /** The placeholder search is unanchored: a key with text around `[[P12]]` still contains
      it, and `[[P]]`, without a digit, contains none. */
  lemma PlaceholderSearchUnanchored()
    ensures ContainsPlaceholder("ref [[P12]] x")
    ensures !ContainsPlaceholder("[[P]]")
  {
    var s := "ref [[P12]] x";
    assert DigitRun(s, 7) == 2;
    assert PlaceholderAt(s, 4);
    var t := "[[P]]";
    forall i: nat | i < |t| ensures !PlaceholderAt(t, i) {
      if i == 0 { assert DigitRun(t, 3) == 0; }
      else { assert i + 3 > |t| || t[i + 1] != '['; }
    }
  }

  /** `\d` is not only ASCII: `[[P\U{0663}]]`, with ARABIC-INDIC DIGIT THREE, is a placeholder
      too, and so is `[[P\U{FF11}\U{FF12}]]` with the fullwidth digits for 12. */
  lemma PlaceholderUnicodeDigits()
    ensures ContainsPlaceholder("[[P\U{0663}]]")
    ensures ContainsPlaceholder("[[P\U{FF11}\U{FF12}]]")
  {
    var u := "[[P\U{0663}]]";
    assert DigitRun(u, 3) == 1;
    assert PlaceholderAt(u, 0);
    var w := "[[P\U{FF11}\U{FF12}]]";
    assert DigitRun(w, 3) == 2;
    assert PlaceholderAt(w, 0);
  }

  /** In `opaque_values`, a key containing a placeholder must map to a string, and any other
      key may map to anything. */
  lemma OpaqueValuesRule(j: Json, m: nat, search: Search)
    requires SearchesPlaceholders(search)
    requires j.Obj? && m < |j.fields|
    ensures ContainsPlaceholder(j.fields[m].0) && !j.fields[m].1.Str? ==> !Validates(OpaqueValuesSchema, j, search)
    ensures !ContainsPlaceholder(j.fields[m].0) ==>
      (Validates(OpaqueValuesSchema, j, search) <==>
       Validates(OpaqueValuesSchema, Obj(j.fields[m := (j.fields[m].0, Null)]), search))
  {
    OpaqueValuesSchemaMeaning(j, search);
    OpaqueValuesSchemaMeaning(Obj(j.fields[m := (j.fields[m].0, Null)]), search);
    OpaqueValuesUpdate(j, m);
  }

  /** Nulling the value of a key without a placeholder keeps `OpaqueValues` as it was;
      a key with a placeholder and a value that is not a string breaks it. */
  lemma OpaqueValuesUpdate(j: Json, m: nat)
    requires j.Obj? && m < |j.fields|
    ensures ContainsPlaceholder(j.fields[m].0) && !j.fields[m].1.Str? ==> !OpaqueValues(j)
    ensures !ContainsPlaceholder(j.fields[m].0) ==>
      (OpaqueValues(j) <==> OpaqueValues(Obj(j.fields[m := (j.fields[m].0, Null)])))
  {
    var j' := Obj(j.fields[m := (j.fields[m].0, Null)]);
    if !ContainsPlaceholder(j.fields[m].0) {
      assert forall i | 0 <= i < |j.fields| && i != m :: j'.fields[i] == j.fields[i];
    }
  }
}
