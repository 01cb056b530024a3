/** The rule-driven redactor: rules loaded from a YAML configuration, each a regular
    expression with a kind, applied in order to a text, every match replaced as the
    chosen strategy says.

    The YAML document reaches the model already loaded, as a `Json` value (YAML's
    mappings, sequences and scalars). The regular expression engine stays abstract
    (`RegexEngine`): whether a pattern compiles under some flags, and the leftmost
    non-overlapping matches `re.sub` visits. SHA-256 is an abstract hexadecimal digest. */
module Redaction {
  import opened Common
  import opened Json

  // ---------------------------------------------------------------------------
  // Flags

  /** The `re` module's flag values that `FLAG_MAP` names. */
  const IgnoreCase: bv8 := 2
  const Multiline: bv8 := 8
  const DotAll: bv8 := 16
  const Verbose: bv8 := 64

  const AllFlags: bv8 := IgnoreCase | Multiline | DotAll | Verbose

  /** `FLAG_MAP.get(name.upper(), 0)`. */
  function FlagValue(name: string): (f: bv8)
    ensures f == 0 || f == IgnoreCase || f == Multiline || f == DotAll || f == Verbose
    ensures f != 0 <==> Upper(name) in ["IGNORECASE", "MULTILINE", "VERBOSE", "DOTALL"]
  {
    var u := Upper(name);
    if u == "IGNORECASE" then IgnoreCase
    else if u == "MULTILINE" then Multiline
    else if u == "VERBOSE" then Verbose
    else if u == "DOTALL" then DotAll
    else 0
  }

  /** The `flags |= ...` fold over the flag names, left to right. */
  function FlagsOf(names: seq<string>): bv8
  {
    if names == [] then 0 else FlagsOf(names[..|names| - 1]) | FlagValue(names[|names| - 1])
  }

  /** The fold distributes over concatenation, so the order of the names does not matter
      beyond which of them occur. */
  lemma {:induction false} FlagsOfAppend(a: seq<string>, b: seq<string>)
    ensures FlagsOf(a + b) == FlagsOf(a) | FlagsOf(b)
  {
    if b == [] {
      assert a + b == a;
    } else {
      var n := |b|;
      assert (a + b)[..|a + b| - 1] == a + b[..n - 1];
      FlagsOfAppend(a, b[..n - 1]);
    }
  }

  /** Only the four known flags can be set; a name that is not one of them adds nothing. */
  lemma {:induction false} FlagsWithinKnown(names: seq<string>)
    ensures FlagsOf(names) | AllFlags == AllFlags
    ensures forall i | 0 <= i < |names| :: FlagValue(names[i]) | FlagsOf(names) == FlagsOf(names)
  {
    if names != [] {
      var n := |names|;
      FlagsWithinKnown(names[..n - 1]);
      forall i | 0 <= i < n ensures FlagValue(names[i]) | FlagsOf(names) == FlagsOf(names) {
        if i < n - 1 {
          assert names[..n - 1][i] == names[i];
        }
      }
    }
  }

  /** Python's `for x in v`, for the values YAML produces: a list yields its items, a
      mapping its keys, a string its characters; anything else is not iterable. */
  function Iterate(v: Json): (r: Result<seq<Json>, Exception>)
    ensures v.Arr? ==> r == Ok(v.items)
    ensures r.Err? <==> !(v.Arr? || v.Obj? || v.Str?)
  {
    match v
    case Arr(items) => Ok(items)
    case Obj(fields) => Ok(seq(|fields|, i requires 0 <= i < |fields| => Str(fields[i].0)))
    case Str(s) => Ok(seq(|s|, i requires 0 <= i < |s| => Str([s[i]])))
    case _ => Err(TypeError("object is not iterable"))
  }

  /** The names a `flags` entry lists: a single string is a one-element list, and every
      element must be a string for `.upper()`. */
  function FlagNames(v: Json): (r: Result<seq<string>, Exception>)
    ensures v.Str? ==> r == Ok([v.s])
    ensures r.Ok? && !v.Str? ==> (Iterate(v).Ok? && |r.value| == |Iterate(v).value|
      && forall i | 0 <= i < |r.value| :: Iterate(v).value[i] == Str(r.value[i]))
  {
    if v.Str? then Ok([v.s])
    else
      match Iterate(v)
      case Err(e) => Err(e)
      case Ok(xs) =>
        if forall i | 0 <= i < |xs| :: xs[i].Str? then Ok(seq(|xs|, i requires 0 <= i < |xs| => xs[i].s))
        else Err(AttributeError("object has no attribute 'upper'"))
  }

  /** A single flag name and the one-element list of it give the same flags. */
  lemma SingleFlagIsList(name: string)
    ensures FlagNames(Str(name)) == FlagNames(Arr([Str(name)]))
  {
    var r := FlagNames(Arr([Str(name)]));
    assert r.Ok?;
    assert r.value == [name];
  }

  method FoldFlags(names: seq<string>) returns (flags: bv8)
    ensures flags == FlagsOf(names)
  {
    flags := 0;
    var i := 0;
    while i < |names|
      invariant 0 <= i <= |names|
      invariant flags == FlagsOf(names[..i])
    {
      assert names[..i + 1][..i] == names[..i];
      flags := flags | FlagValue(names[i]);
      i := i + 1;
    }
    assert names[..i] == names;
  }

  // ---------------------------------------------------------------------------
  // Rules

  /** The regular expression engine: whether `re.compile(pattern, flags)` succeeds, and the
      spans `(start, end)` of the leftmost non-overlapping matches in a text. */
  datatype RegexEngine = RegexEngine(
    compiles: (string, bv8) -> bool,
    matches: (string, bv8, string) -> seq<(nat, nat)>)

  /** A loaded rule: `name` and `kind` are whatever the YAML holds, and the compiled
      pattern is its source text with its flags. */
  datatype Rule = Rule(name: Json, kind: Json, pattern: string, flags: bv8)

  /** One entry of `rules`: `name` then `pattern` are looked up (a missing one raises
      `KeyError`), `kind` defaults to `name`, `flags` to the empty list. */
  function EntryRule(entry: Json, engine: RegexEngine): (r: Result<Rule, Exception>)
    ensures r.Ok? ==> entry.Obj? && HasKey(entry.fields, "name") && HasKey(entry.fields, "pattern")
    ensures r.Ok? ==> (r.value.name == Get(entry.fields, "name").value
      && r.value.kind == GetOr(entry.fields, "kind", r.value.name)
      && Get(entry.fields, "pattern") == Some(Str(r.value.pattern)))
    ensures entry.Obj? && !HasKey(entry.fields, "name") ==> r == Err(KeyError("name"))
    ensures entry.Obj? && HasKey(entry.fields, "name") && !HasKey(entry.fields, "pattern") ==> r == Err(KeyError("pattern"))
  {
    if !entry.Obj? then Err(TypeError("rule entry is not a mapping"))
    else
      match Get(entry.fields, "name")
      case None => Err(KeyError("name"))
      case Some(name) =>
        var kind := GetOr(entry.fields, "kind", name);
        match Get(entry.fields, "pattern")
        case None => Err(KeyError("pattern"))
        case Some(pattern) =>
          match FlagNames(GetOr(entry.fields, "flags", Arr([])))
          case Err(e) => Err(e)
          case Ok(names) =>
            var flags := FlagsOf(names);
            if !pattern.Str? then Err(TypeError("first argument must be string or compiled pattern"))
            else if !engine.compiles(pattern.s, flags) then Err(OtherError("re.error"))
            else Ok(Rule(name, kind, pattern.s, flags))
  }

  /** `EntryRule` as a function value. */
  function RuleOf(engine: RegexEngine): Json -> Result<Rule, Exception>
  {
    entry => EntryRule(entry, engine)
  }

  /** The rules of a list of entries, or the error of the first entry that fails. */
  function EntriesRules(entries: seq<Json>, engine: RegexEngine): (r: Result<seq<Rule>, Exception>)
    ensures r.Ok? ==> (|r.value| == |entries|
      && forall i | 0 <= i < |entries| :: EntryRule(entries[i], engine) == Ok(r.value[i]))
  {
    var run := RunUntilError(entries, RuleOf(engine));
    RunUntilErrorMeaning(entries, RuleOf(engine));
    assert forall i | 0 <= i < |run.0| :: RuleOf(engine)(entries[i]) == EntryRule(entries[i], engine);
    if run.1.Some? then Err(run.1.value) else Ok(run.0)
  }

  /** `_load_rules` after the YAML document `cfg` is read: `cfg.get("rules", [])`, entry by entry. */
  function RulesOf(cfg: Json, engine: RegexEngine): Result<seq<Rule>, Exception>
  {
    if !cfg.Obj? then Err(AttributeError("object has no attribute 'get'"))
    else
      match Iterate(GetOr(cfg.fields, "rules", Arr([])))
      case Err(e) => Err(e)
      case Ok(entries) => EntriesRules(entries, engine)
  }

  /** Loading fails exactly when some entry fails, and then with the error of the first one. */
  lemma EntriesRulesFirstError(entries: seq<Json>, engine: RegexEngine, i: nat)
    requires i < |entries| && EntryRule(entries[i], engine).Err?
    requires forall j | 0 <= j < i :: EntryRule(entries[j], engine).Ok?
    ensures EntriesRules(entries, engine) == Err(EntryRule(entries[i], engine).error)
  {
    var f := RuleOf(engine);
    assert forall j | 0 <= j < i :: f(entries[j]) == EntryRule(entries[j], engine);
    assert f(entries[i]) == EntryRule(entries[i], engine);
    RunUntilErrorFirstError(entries, f, i);
  }

  /** A configuration without `rules` loads no rules. */
  lemma NoRulesKey(cfg: Json, engine: RegexEngine)
    requires cfg.Obj? && !HasKey(cfg.fields, "rules")
    ensures RulesOf(cfg, engine) == Ok([])
  {
  }

  /** `_load_rules`, with the loop over the entries and the inner loop over the flag names. */
  method LoadRules(cfg: Json, engine: RegexEngine) returns (r: Result<seq<Rule>, Exception>)
    ensures r == RulesOf(cfg, engine)
  {
    if !cfg.Obj? {
      return Err(AttributeError("object has no attribute 'get'"));
    }
    var it := Iterate(GetOr(cfg.fields, "rules", Arr([])));
    if it.Err? {
      return Err(it.error);
    }
    var entries := it.value;
    var rules: seq<Rule> := [];
    var i := 0;
    while i < |entries|
      invariant 0 <= i <= |entries|
      invariant |rules| == i
      invariant forall j | 0 <= j < i :: EntryRule(entries[j], engine) == Ok(rules[j])
    {
      var one := EntryRule(entries[i], engine);
      if one.Ok? {
        var entry := entries[i];
        var names := FlagNames(GetOr(entry.fields, "flags", Arr([])));
        var flags := FoldFlags(names.value);
        rules := rules + [Rule(one.value.name, one.value.kind, one.value.pattern, flags)];
      } else {
        EntriesRulesFirstError(entries, engine, i);
        return Err(one.error);
      }
      i := i + 1;
    }
    LoadedRules(entries, engine, rules);
    r := Ok(rules);
  }

  /** Rules that every entry yields are the loaded rules. */
  lemma LoadedRules(entries: seq<Json>, engine: RegexEngine, rules: seq<Rule>)
    requires |rules| == |entries|
    requires forall j | 0 <= j < |entries| :: EntryRule(entries[j], engine) == Ok(rules[j])
    ensures EntriesRules(entries, engine) == Ok(rules)
  {
    var f := RuleOf(engine);
    assert forall j | 0 <= j < |entries| :: f(entries[j]) == EntryRule(entries[j], engine);
    RunUntilErrorAllOk(entries, f, rules);
  }

  // ---------------------------------------------------------------------------
  // Replacement strategies

  /** `hexdigest()[:12]` of an abstract SHA-256. */
  function Hash(sha256: string -> string, value: string): (h: string)
    ensures |sha256(value)| >= 12 ==> h == sha256(value)[..12]
  {
    Slice(sha256(value), 0, 12)
  }

  predicate IsHexDigest(d: string)
  {
    |d| == 64 && forall i | 0 <= i < |d| :: d[i] in "0123456789abcdef"
  }

  /** A fresh pseudonym: `<KIND:hash>`. */
  function Token(kind: string, value: string, sha256: string -> string): (t: string)
    ensures IsHexDigest(sha256(value)) ==> |t| == |kind| + 15
  {
    "<" + Upper(kind) + ":" + Hash(sha256, value) + ">"
  }

  /** `_mask`: a value no longer than `k` becomes all asterisks; otherwise the first
      `len - k` characters become asterisks and `value[-k:]` follows. */
  function Mask(value: string, k: int): string
  {
    if |value| <= k then Repeat('*', |value|)
    else Repeat('*', |value| - k) + SliceFrom(value, -k)
  }

  /** What `_mask` gives for every `mask_keep`:
      - a value no longer than `k` becomes as many asterisks;
      - with `1 <= k < len`, asterisks replace all but the last `k` characters, which are
        kept, and the length is kept;
      - with `k = 0`, `value[-0:]` is the whole value, so asterisks are followed by the
        unmasked value and nothing is hidden;
      - with `k < 0`, `len - k` asterisks are followed by the value from index `-k` on:
        the mask is longer than the value and still ends with its tail. */
  lemma MaskMeaning(value: string, k: int)
    ensures |value| <= k ==> Mask(value, k) == Repeat('*', |value|)
    ensures 1 <= k < |value| ==>
      && |Mask(value, k)| == |value|
      && Mask(value, k) == Repeat('*', |value| - k) + value[|value| - k..]
    ensures k == 0 && value != "" ==>
      && Mask(value, 0) == Repeat('*', |value|) + value
      && OccursAt(Mask(value, 0), value, |value|)
    ensures k < 0 ==>
      && |Mask(value, k)| > |value|
      && Mask(value, k) == Repeat('*', |value| - k) + value[if -k < |value| then -k else |value|..]
  {
    if 1 <= k < |value| {
      assert SliceBound(-k, |value|) == |value| - k;
    } else if k == 0 && value != "" {
      var stars := Repeat('*', |value|);
      assert SliceBound(0, |value|) == 0 && value[0..] == value;
      assert Mask(value, 0) == stars + value;
      OccursAtEnd(stars, value);
    } else if k < 0 {
      assert SliceBound(-k, |value|) == if -k < |value| then -k else |value|;
    }
  }

  /** The effect of one replacement: the text produced (or the exception raised) and the
      pseudonym map afterwards. */
  datatype Outcome = Outcome(result: Result<string, Exception>, pseudomap: map<string, string>)

  /** `_pseudonymize`: the key `kind|value` is looked up; a new key gets a fresh token,
      which needs `kind.upper()` and so raises for a kind that is not a string. */
  function PseudoStep(m: map<string, string>, kind: Json, value: string, sha256: string -> string, show: Json -> string): (o: Outcome)
    ensures var key := Display(kind, show) + "|" + value;
      && (key in m ==> o == Outcome(Ok(m[key]), m))
      && (key !in m && kind.Str? ==> o == Outcome(Ok(Token(kind.s, value, sha256)), m[key := Token(kind.s, value, sha256)]))
      && (key !in m && !kind.Str? ==> o.result.Err? && o.pseudomap == m)
  {
    var key := Display(kind, show) + "|" + value;
    if key in m then Outcome(Ok(m[key]), m)
    else if !kind.Str? then Outcome(Err(AttributeError("object has no attribute 'upper'")), m)
    else
      var t := Token(kind.s, value, sha256);
      Outcome(Ok(t), m[key := t])
  }

  /** The map only grows: existing entries keep their tokens, at most one key is added, and
      a successful call returns the token now stored under its key. */
  lemma PseudoStepGrows(m: map<string, string>, kind: Json, value: string, sha256: string -> string, show: Json -> string)
    ensures var o := PseudoStep(m, kind, value, sha256, show);
      var key := Display(kind, show) + "|" + value;
      && Extends(o.pseudomap, m)
      && o.pseudomap.Keys <= m.Keys + {key}
      && |o.pseudomap.Keys| <= |m.Keys| + 1
      && (o.result.Ok? ==> key in o.pseudomap && o.result.value == o.pseudomap[key])
  {
    var o := PseudoStep(m, kind, value, sha256, show);
    var key := Display(kind, show) + "|" + value;
    if key !in m && kind.Str? {
      assert o.pseudomap.Keys == m.Keys + {key};
    }
  }

  /** Asking again for the same pseudonym gives the identical token and leaves the map alone. */
  lemma PseudoStepMemoised(m: map<string, string>, kind: Json, value: string, sha256: string -> string, show: Json -> string)
    requires PseudoStep(m, kind, value, sha256, show).result.Ok?
    ensures var o := PseudoStep(m, kind, value, sha256, show);
      PseudoStep(o.pseudomap, kind, value, sha256, show) == o
  {
    PseudoStepGrows(m, kind, value, sha256, show);
  }

  /** The key joins kind and value with `|`, so different pairs can share a key: a value
      redacted as kind `a|b` blocks the token of kind `a` for the value `b|c`. */
  lemma PseudoKeyCollision(sha256: string -> string, show: Json -> string)
    ensures var o1 := PseudoStep(map[], Str("a|b"), "c", sha256, show);
      var o2 := PseudoStep(o1.pseudomap, Str("a"), "b|c", sha256, show);
      o2.result == o1.result && o2.result == Ok(Token("a|b", "c", sha256))
  {
    assert "a|b" + "|" + "c" == "a" + "|" + "b|c";
  }

  /** `m'` keeps every entry of `m`. */
  predicate Extends(m': map<string, string>, m: map<string, string>)
  {
    forall k | k in m :: k in m' && m'[k] == m[k]
  }

  /** `_replace`: pseudonym, mask, or the generic placeholder, whose kind is not upper-cased. */
  function ReplaceStep(strategy: string, maskKeep: int, m: map<string, string>, kind: Json, value: string,
                       sha256: string -> string, show: Json -> string): (o: Outcome)
    ensures strategy == "pseudonymize" ==> o == PseudoStep(m, kind, value, sha256, show)
    ensures strategy == "mask" ==> o == Outcome(Ok(Mask(value, maskKeep)), m)
    ensures strategy != "pseudonymize" && strategy != "mask" ==>
      o == Outcome(Ok("<REDACTED:" + Display(kind, show) + ">"), m)
  {
    if strategy == "pseudonymize" then PseudoStep(m, kind, value, sha256, show)
    else if strategy == "mask" then Outcome(Ok(Mask(value, maskKeep)), m)
    else Outcome(Ok("<REDACTED:" + Display(kind, show) + ">"), m)
  }

  lemma ReplaceStepGrows(strategy: string, maskKeep: int, m: map<string, string>, kind: Json, value: string,
                         sha256: string -> string, show: Json -> string)
    ensures Extends(ReplaceStep(strategy, maskKeep, m, kind, value, sha256, show).pseudomap, m)
  {
    PseudoStepGrows(m, kind, value, sha256, show);
  }

  // ---------------------------------------------------------------------------
  // Substitution and redaction

  /** Match spans that are in order, do not overlap and lie at or after `pos` within a
      text of length `n`. */
  predicate SpansFrom(spans: seq<(nat, nat)>, pos: nat, n: nat)
    decreases |spans|
  {
    spans == [] || (pos <= spans[0].0 <= spans[0].1 <= n && SpansFrom(spans[1..], spans[0].1, n))
  }

  /** The engine reports well-formed spans for every pattern and text. */
  ghost predicate EngineOk(engine: RegexEngine)
  {
    forall p, f, t :: SpansFrom(engine.matches(p, f, t), 0, |t|)
  }

  /** The settings a redactor applies a rule with. */
  datatype Settings = Settings(strategy: string, maskKeep: int, engine: RegexEngine,
                               sha256: string -> string, show: Json -> string)

  /** Puts `prefix` in front of a successful result. */
  function Prepend(prefix: string, o: Outcome): (r: Outcome)
    ensures r.pseudomap == o.pseudomap
    ensures o.result.Ok? ==> r.result == Ok(prefix + o.result.value)
    ensures o.result.Err? ==> r.result == o.result
  {
    if o.result.Ok? then Outcome(Ok(prefix + o.result.value), o.pseudomap) else o
  }

  lemma PrependNothing(o: Outcome)
    ensures Prepend("", o) == o
  {
    if o.result.Ok? {
      assert "" + o.result.value == o.result.value;
    }
  }

  lemma PrependTwice(x: string, y: string, o: Outcome)
    ensures Prepend(x, Prepend(y, o)) == Prepend(x + y, o)
  {
    if o.result.Ok? {
      assert x + (y + o.result.value) == (x + y) + o.result.value;
    }
  }

  /** One step of the substitution: the first match is replaced, then the rest follows. */
  lemma SubFromUnfold(st: Settings, kind: Json, text: string, spans: seq<(nat, nat)>, pos: nat, m: map<string, string>)
    requires SpansFrom(spans, pos, |text|) && pos <= |text| && spans != []
    ensures var (a, b) := spans[0];
      var rep := ReplaceStep(st.strategy, st.maskKeep, m, kind, text[a..b], st.sha256, st.show);
      && pos <= a <= b <= |text| && SpansFrom(spans[1..], b, |text|)
      && SubFrom(st, kind, text, spans, pos, m) ==
         if rep.result.Err? then rep
         else Prepend(text[pos..a] + rep.result.value, SubFrom(st, kind, text, spans[1..], b, rep.pseudomap))
  {
  }

  /** `pattern.sub(repl, text)` from position `pos` on: the text between matches is kept,
      each match is replaced in order, and an exception of the replacement stops it. */
  function SubFrom(st: Settings, kind: Json, text: string, spans: seq<(nat, nat)>, pos: nat, m: map<string, string>): (o: Outcome)
    requires SpansFrom(spans, pos, |text|) && pos <= |text|
    decreases |spans|
  {
    if spans == [] then Outcome(Ok(text[pos..]), m)
    else
      var (a, b) := spans[0];
      var rep := ReplaceStep(st.strategy, st.maskKeep, m, kind, text[a..b], st.sha256, st.show);
      if rep.result.Err? then rep
      else Prepend(text[pos..a] + rep.result.value, SubFrom(st, kind, text, spans[1..], b, rep.pseudomap))
  }

  /** Applying one rule to a text. */
  function RuleStep(st: Settings, rule: Rule, text: string, m: map<string, string>): Outcome
    requires EngineOk(st.engine)
  {
    SubFrom(st, rule.kind, text, st.engine.matches(rule.pattern, rule.flags, text), 0, m)
  }

  /** `redact`: the rules in list order, each on the text the previous one produced. */
  function RedactRules(st: Settings, rules: seq<Rule>, text: string, m: map<string, string>): Outcome
    requires EngineOk(st.engine)
    decreases |rules|
  {
    if rules == [] then Outcome(Ok(text), m)
    else
      var o := RuleStep(st, rules[0], text, m);
      if o.result.Err? then o else RedactRules(st, rules[1..], o.result.value, o.pseudomap)
  }

  /** The last rule runs on the output of all rules before it. */
  lemma {:induction false} RedactRulesAppend(st: Settings, rules: seq<Rule>, rule: Rule, text: string, m: map<string, string>)
    requires EngineOk(st.engine)
    ensures var o := RedactRules(st, rules, text, m);
      RedactRules(st, rules + [rule], text, m) ==
        if o.result.Err? then o else RuleStep(st, rule, o.result.value, o.pseudomap)
  {
    if rules == [] {
      assert rules + [rule] == [rule];
    } else {
      assert (rules + [rule])[1..] == rules[1..] + [rule];
      var o := RuleStep(st, rules[0], text, m);
      if o.result.Ok? {
        RedactRulesAppend(st, rules[1..], rule, o.result.value, o.pseudomap);
      }
    }
  }

  lemma {:induction false} SubFromGrows(st: Settings, kind: Json, text: string, spans: seq<(nat, nat)>, pos: nat, m: map<string, string>)
    requires SpansFrom(spans, pos, |text|) && pos <= |text|
    ensures Extends(SubFrom(st, kind, text, spans, pos, m).pseudomap, m)
    decreases |spans|
  {
    if spans != [] {
      var (a, b) := spans[0];
      ReplaceStepGrows(st.strategy, st.maskKeep, m, kind, text[a..b], st.sha256, st.show);
      var rep := ReplaceStep(st.strategy, st.maskKeep, m, kind, text[a..b], st.sha256, st.show);
      if rep.result.Ok? {
        SubFromGrows(st, kind, text, spans[1..], b, rep.pseudomap);
      }
    }
  }

  /** Redaction never forgets or changes a pseudonym, so tokens stay the same across calls. */
  lemma {:induction false} RedactGrows(st: Settings, rules: seq<Rule>, text: string, m: map<string, string>)
    requires EngineOk(st.engine)
    ensures Extends(RedactRules(st, rules, text, m).pseudomap, m)
    decreases |rules|
  {
    if rules != [] {
      var spans := st.engine.matches(rules[0].pattern, rules[0].flags, text);
      SubFromGrows(st, rules[0].kind, text, spans, 0, m);
      var o := RuleStep(st, rules[0], text, m);
      if o.result.Ok? {
        RedactGrows(st, rules[1..], o.result.value, o.pseudomap);
      }
    }
  }

  /** With no rules, the text comes back unchanged. */
  lemma RedactNoRules(st: Settings, text: string, m: map<string, string>)
    requires EngineOk(st.engine)
    ensures RedactRules(st, [], text, m) == Outcome(Ok(text), m)
  {
  }

  /** When no rule's pattern matches the text, it comes back unchanged and so does the map. */
  lemma {:induction false} RedactNoMatches(st: Settings, rules: seq<Rule>, text: string, m: map<string, string>)
    requires EngineOk(st.engine)
    requires forall i | 0 <= i < |rules| :: st.engine.matches(rules[i].pattern, rules[i].flags, text) == []
    ensures RedactRules(st, rules, text, m) == Outcome(Ok(text), m)
    decreases |rules|
  {
    if rules != [] {
      assert text[0..] == text;
      assert forall i | 0 <= i < |rules| - 1 :: rules[1..][i] == rules[i + 1];
      RedactNoMatches(st, rules[1..], text, m);
    }
  }

  /** Under the generic strategy every match becomes `<REDACTED:kind>` and the map is untouched. */
  lemma {:induction false} GenericSubKeepsMap(st: Settings, kind: Json, text: string, spans: seq<(nat, nat)>, pos: nat, m: map<string, string>)
    requires st.strategy != "pseudonymize" && st.strategy != "mask"
    requires SpansFrom(spans, pos, |text|) && pos <= |text|
    ensures SubFrom(st, kind, text, spans, pos, m) .result.Ok?
    ensures SubFrom(st, kind, text, spans, pos, m).pseudomap == m
    decreases |spans|
  {
    if spans != [] {
      GenericSubKeepsMap(st, kind, text, spans[1..], spans[0].1, m);
    }
  }

  // ---------------------------------------------------------------------------
  // The redactor object

  class Redactor {
    const strategy: string
    const maskKeep: int
    const rules: seq<Rule>
    const engine: RegexEngine
    const sha256: string -> string
    const show: Json -> string
    var pseudomap: map<string, string>

    ghost predicate Valid()
    {
      EngineOk(engine)
    }

    function SettingsOf(): Settings
    {
      Settings(strategy, maskKeep, engine, sha256, show)
    }

    /** A redactor over the given rules: the pseudonym map starts empty. */
    constructor (strategy: string, maskKeep: int, rules: seq<Rule>, engine: RegexEngine,
                 sha256: string -> string, show: Json -> string)
      requires EngineOk(engine)
      ensures Valid()
      ensures this.strategy == strategy && this.maskKeep == maskKeep && this.rules == rules
      ensures this.engine == engine && this.sha256 == sha256 && this.show == show
      ensures pseudomap == map[]
    {
      this.strategy := strategy;
      this.maskKeep := maskKeep;
      this.rules := rules;
      this.engine := engine;
      this.sha256 := sha256;
      this.show := show;
      pseudomap := map[];
    }

    method Pseudonymize(kind: Json, value: string) returns (r: Result<string, Exception>)
      modifies this
      ensures Outcome(r, pseudomap) == PseudoStep(old(pseudomap), kind, value, sha256, show)
    {
      var key := Display(kind, show) + "|" + value;
      if key !in pseudomap {
        if !kind.Str? {
          return Err(AttributeError("object has no attribute 'upper'"));
        }
        pseudomap := pseudomap[key := Token(kind.s, value, sha256)];
      }
      r := Ok(pseudomap[key]);
    }

    method Replace(kind: Json, value: string) returns (r: Result<string, Exception>)
      modifies this
      ensures Outcome(r, pseudomap) == ReplaceStep(strategy, maskKeep, old(pseudomap), kind, value, sha256, show)
    {
      if strategy == "pseudonymize" {
        r := Pseudonymize(kind, value);
      } else if strategy == "mask" {
        r := Ok(Mask(value, maskKeep));
      } else {
        r := Ok("<REDACTED:" + Display(kind, show) + ">");
      }
    }

    /** `pattern.sub(lambda m: self._replace(kind, m.group(0)), text)`. */
    method Sub(rule: Rule, text: string) returns (r: Result<string, Exception>)
      requires Valid()
      modifies this
      ensures Outcome(r, pseudomap) == RuleStep(SettingsOf(), rule, text, old(pseudomap))
    {
      var st := SettingsOf();
      var spans := engine.matches(rule.pattern, rule.flags, text);
      var out := "";
      var pos: nat := 0;
      var j := 0;
      assert spans[0..] == spans;
      PrependNothing(SubFrom(st, rule.kind, text, spans, 0, pseudomap));
      while j < |spans|
        invariant 0 <= j <= |spans| && pos <= |text|
        invariant SpansFrom(spans[j..], pos, |text|)
        invariant RuleStep(st, rule, text, old(pseudomap)) ==
                  Prepend(out, SubFrom(st, rule.kind, text, spans[j..], pos, pseudomap))
      {
        var (a, b) := spans[j];
        assert spans[j..][1..] == spans[j + 1..];
        SubFromUnfold(st, rule.kind, text, spans[j..], pos, pseudomap);
        var rep := Replace(rule.kind, text[a..b]);
        if rep.Err? {
          return rep;
        }
        PrependTwice(out, text[pos..a] + rep.value, SubFrom(st, rule.kind, text, spans[j + 1..], b, pseudomap));
        out := out + (text[pos..a] + rep.value);
        pos := b;
        j := j + 1;
      }
      r := Ok(out + text[pos..]);
    }

    /** `redact`: the rules in order, each on the previous rule's output. */
    method Redact(text: string) returns (r: Result<string, Exception>)
      requires Valid()
      modifies this
      ensures Outcome(r, pseudomap) == RedactRules(SettingsOf(), rules, text, old(pseudomap))
      ensures Extends(pseudomap, old(pseudomap))
    {
      RedactGrows(SettingsOf(), rules, text, pseudomap);
      var t := text;
      var i := 0;
      while i < |rules|
        invariant 0 <= i <= |rules|
        invariant RedactRules(SettingsOf(), rules, text, old(pseudomap)) ==
                  RedactRules(SettingsOf(), rules[i..], t, pseudomap)
      {
        assert rules[i..][1..] == rules[i + 1..];
        var o := Sub(rules[i], t);
        if o.Err? {
          return o;
        }
        t := o.value;
        i := i + 1;
      }
      r := Ok(t);
    }
  }

  /** `Redactor(rules_file, strategy="pseudonymize", mask_keep=4)`, with `cfg` the YAML
      document the file holds: the rules are loaded once, and an error while loading them
      escapes the constructor. */
  method NewRedactor(engine: RegexEngine, sha256: string -> string, show: Json -> string, cfg: Json,
                     strategy: string := "pseudonymize", maskKeep: int := 4)
    returns (r: Result<Redactor, Exception>)
    requires EngineOk(engine)
    ensures RulesOf(cfg, engine).Err? ==> r.Err? && r.error == RulesOf(cfg, engine).error
    ensures RulesOf(cfg, engine).Ok? ==>
      && r.Ok? && fresh(r.value) && r.value.Valid()
      && r.value.rules == RulesOf(cfg, engine).value && r.value.pseudomap == map[]
      && r.value.strategy == strategy && r.value.maskKeep == maskKeep
      && r.value.engine == engine && r.value.sha256 == sha256 && r.value.show == show
  {
    var loaded := LoadRules(cfg, engine);
    if loaded.Err? {
      return Err(loaded.error);
    }
    var redactor := new Redactor(strategy, maskKeep, loaded.value, engine, sha256, show);
    r := Ok(redactor);
  }
}
