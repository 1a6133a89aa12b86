/**
 * The `.env` parser (packages/env-parser-rust/src/lib.rs): `KEY=value`
 * lines with optional quotes, `${NAME}` references resolved against the
 * keys of earlier lines and then the process environment, typed getters
 * over the parsed map, and schema validation.
 */
module EnvParser {
  import opened Wrappers
  import opened Text

  // ---------------------------------------------------------------- lines

  /** The outcome of `parse_line` as written, where a lone quote character makes the slice panic. */
  datatype LineOutcome = Parsed(key: string, value: string) | NoPair | Panicked

  /** A value wrapped in one pair of matching double or single quotes, of at least two characters. */
  predicate Quoted(value: string) {
    |value| >= 2 && ((value[0] == '"' && value[|value| - 1] == '"') ||
                     (value[0] == '\'' && value[|value| - 1] == '\''))
  }

  /** The quote test `parse_line` makes: it also holds for the one-character values `"` and `'`. */
  predicate LooksQuoted(value: string) {
    (StartsWith(value, "\"") && EndsWith(value, "\"")) || (StartsWith(value, "'") && EndsWith(value, "'"))
  }

  /**
   * `parse_line` as written: key and value are the trimmed text around the
   * first '='; the value loses its outer quotes through `value[1..len - 1]`,
   * which panics when the value is a single quote character.
   */
  function ParseLineAsWritten(line: string): LineOutcome {
    match Find(line, '=')
    case None => NoPair
    case Some(i) =>
      var key := Trim(line[..i]);
      var value := Trim(line[i + 1..]);
      if key == [] then NoPair
      else if LooksQuoted(value) then
        if |value| < 2 then Panicked else Parsed(key, value[1..|value| - 1])
      else Parsed(key, value)
  }

  /** One pair of matching outer quotes removed. */
  function Unquote(value: string): (r: string)
    ensures Quoted(value) ==> r == value[1..|value| - 1]
    ensures !Quoted(value) ==> r == value
  {
    if Quoted(value) then value[1..|value| - 1] else value
  }

  /**
   * `parse_line`, with quotes stripped only from a value of at least two
   * characters: no pair without '=' or with an empty key; otherwise the
   * trimmed key, which holds no '=', and the trimmed, unquoted value.
   */
  function ParseLine(line: string): (r: Option<(string, string)>)
    ensures '=' !in line ==> r.None?
    ensures r.Some? ==> r.value.0 != [] && '=' !in r.value.0
  {
    match Find(line, '=')
    case None => None
    case Some(i) =>
      var key := Trim(line[..i]);
      TrimSubset(line[..i], '=');
      if key == [] then None else Some((key, Unquote(Trim(line[i + 1..]))))
  }

  /** Whenever the line as written does not panic, it gives what `ParseLine` gives. */
  lemma AsWrittenAgrees(line: string)
    requires !ParseLineAsWritten(line).Panicked?
    ensures ParseLineAsWritten(line).NoPair? <==> ParseLine(line).None?
    ensures ParseLineAsWritten(line).Parsed? ==>
      ParseLine(line) == Some((ParseLineAsWritten(line).key, ParseLineAsWritten(line).value))
  {
  }

  /** `KEY="` and `KEY='` make the line as written panic, where the corrected parser keeps the lone quote. */
  lemma LoneQuotePanics(key: string, q: char)
    requires key != [] && !IsWhitespace(key[0]) && !IsWhitespace(key[|key| - 1]) && '=' !in key
    requires q == '"' || q == '\''
    ensures ParseLineAsWritten(key + "=" + [q]).Panicked?
    ensures ParseLine(key + "=" + [q]) == Some((key, [q]))
  {
    var line := key + "=" + [q];
    assert line[|key|] == '=';
    assert line[..|key|] == key;
    assert line[|key| + 1..] == [q];
    FindAt(line, '=', |key|);
    TrimUnchanged(key);
    TrimUnchanged([q]);
  }

  /** A key and a double-quoted value read back as that key and the bare value. */
  lemma QuotedLineRoundTrip(key: string, value: string)
    requires key != [] && !IsWhitespace(key[0]) && !IsWhitespace(key[|key| - 1]) && '=' !in key
    ensures ParseLine(key + "=\"" + value + "\"") == Some((key, value))
  {
    var quoted := "\"" + value + "\"";
    var line := key + "=" + quoted;
    assert key + "=\"" + value + "\"" == line;
    assert line[|key|] == '=';
    assert line[..|key|] == key;
    assert line[|key| + 1..] == quoted;
    FindAt(line, '=', |key|);
    TrimUnchanged(key);
    TrimUnchanged(quoted);
    assert quoted[1..|quoted| - 1] == value;
  }

  /** A key and a value that needs neither trimming nor unquoting read back unchanged. */
  lemma PlainLineRoundTrip(key: string, value: string)
    requires key != [] && !IsWhitespace(key[0]) && !IsWhitespace(key[|key| - 1]) && '=' !in key
    requires value == [] || (!IsWhitespace(value[0]) && !IsWhitespace(value[|value| - 1]))
    requires !Quoted(value)
    ensures ParseLine(key + "=" + value) == Some((key, value))
  {
    var line := key + "=" + value;
    assert line[|key|] == '=';
    assert line[..|key|] == key;
    assert line[|key| + 1..] == value;
    FindAt(line, '=', |key|);
    TrimUnchanged(key);
    TrimUnchanged(value);
  }

  // ---------------------------------------------------------------- references

  /** The reference text of a name. */
  function Ref(name: string): string {
    "${" + name + "}"
  }

  /**
   * The names the pattern `\$\{([^}]+)\}` captures, left to right without
   * overlap: "${", then at least one character other than '}', then '}'.
   */
  function Placeholders(s: string): (r: seq<string>)
    ensures forall i :: 0 <= i < |r| ==> r[i] != [] && '}' !in r[i]
    decreases |s|
  {
    if |s| < 2 then []
    else if s[0] == '$' && s[1] == '{' then
      match Find(s[2..], '}')
      case Some(j) =>
        if j >= 1 then [s[2..2 + j]] + Placeholders(s[3 + j..]) else Placeholders(s[1..])
      case None => Placeholders(s[1..])
    else Placeholders(s[1..])
  }

  /** Text before the first '$' holds no reference. */
  lemma {:induction false} PlaceholdersAfterPlain(a: string, b: string)
    requires '$' !in a
    ensures Placeholders(a + b) == Placeholders(b)
    decreases |a|
  {
    if a != [] {
      var s := a + b;
      assert s[1..] == a[1..] + b;
      PlaceholdersAfterPlain(a[1..], b);
      if |s| >= 2 {
        assert s[0] == a[0] && a[0] in a;
        assert Placeholders(s) == Placeholders(s[1..]);
      } else {
        assert b == [];
      }
    } else {
      assert a + b == b;
    }
  }

  /** A reference at the start is captured with its name. */
  lemma PlaceholdersOfRef(name: string, b: string)
    requires name != [] && '}' !in name
    ensures Placeholders(Ref(name) + b) == [name] + Placeholders(b)
  {
    var s := Ref(name) + b;
    assert s[0] == '$' && s[1] == '{';
    assert s[2..] == name + "}" + b;
    assert (name + "}" + b)[|name|] == '}';
    assert (name + "}" + b)[..|name|] == name;
    assert s[2..2 + |name|] == name;
    assert s[3 + |name|..] == b;
  }

  /** The value a reference resolves to: earlier keys first, then the process environment. */
  function Resolve(name: string, env: map<string, string>, processEnv: map<string, string>): (r: Option<string>)
    ensures name in env ==> r == Some(env[name])
    ensures name !in env && name in processEnv ==> r == Some(processEnv[name])
    ensures r.None? <==> name !in env && name !in processEnv
  {
    if name in env then Some(env[name])
    else if name in processEnv then Some(processEnv[name])
    else None
  }

  /** One round of `expand_variables`: every copy of the reference replaced, or nothing when it does not resolve. */
  function ExpandOne(text: string, name: string, env: map<string, string>, processEnv: map<string, string>): string {
    match Resolve(name, env, processEnv)
    case Some(v) => ReplaceAll(text, Ref(name), v)
    case None => text
  }

  /** The rounds for the given names, in order. */
  function ExpandAll(text: string, names: seq<string>, env: map<string, string>, processEnv: map<string, string>): string
    decreases |names|
  {
    if names == [] then text else ExpandAll(ExpandOne(text, names[0], env, processEnv), names[1..], env, processEnv)
  }

  /** What `expand_variables` makes of a value. */
  function Expanded(value: string, env: map<string, string>, processEnv: map<string, string>): string {
    ExpandAll(value, Placeholders(value), env, processEnv)
  }

  /** `expand_variables`: one replacement round per captured reference. */
  method ExpandVariables(value: string, env: map<string, string>, processEnv: map<string, string>) returns (r: string)
    ensures r == Expanded(value, env, processEnv)
  {
    var names := Placeholders(value);
    r := value;
    for i := 0 to |names|
      invariant ExpandAll(r, names[i..], env, processEnv) == Expanded(value, env, processEnv)
    {
      assert names[i..][1..] == names[i + 1..];
      match Resolve(names[i], env, processEnv)
      case Some(v) =>
        r := ReplaceAll(r, Ref(names[i]), v);
      case None =>
    }
  }

  /** A value without '$' is left as it is. */
  lemma ExpandPlain(value: string, env: map<string, string>, processEnv: map<string, string>)
    requires '$' !in value
    ensures Expanded(value, env, processEnv) == value
  {
    PlaceholdersAfterPlain(value, []);
    assert value + [] == value;
  }

  /**
   * A value holding one reference becomes the text around it with the
   * reference's earlier value, else its process value, else the reference
   * itself left in place.
   */
  lemma ExpandOneReference(a: string, name: string, b: string, env: map<string, string>, processEnv: map<string, string>)
    requires '$' !in a && '$' !in b && name != [] && '}' !in name
    ensures Expanded(a + Ref(name) + b, env, processEnv) ==
      a + Resolve(name, env, processEnv).GetOr(Ref(name)) + b
  {
    var value := a + Ref(name) + b;
    assert value == a + (Ref(name) + b);
    PlaceholdersAfterPlain(a, Ref(name) + b);
    PlaceholdersOfRef(name, b);
    PlaceholdersAfterPlain(b, []);
    assert b + [] == b;
    assert Placeholders(value) == [name];
    assert [name][0] == name && [name][1..] == [];
    var once := ExpandOne(value, name, env, processEnv);
    assert ExpandAll(once, [], env, processEnv) == once;
    assert ExpandAll(value, [name], env, processEnv) == once;
    assert Expanded(value, env, processEnv) == ExpandOne(value, name, env, processEnv);
    match Resolve(name, env, processEnv)
    case Some(v) =>
      ReplaceAllAppend(a, Ref(name) + b, Ref(name), v);
      ReplaceAllLead(b, Ref(name), v);
      ReplaceAllAbsent(b, Ref(name), v);
    case None =>
  }

  // ---------------------------------------------------------------- content

  /** The pair a line contributes: none for a blank or '#' line, else what `ParseLine` reads from the trimmed line. */
  function LineEntry(line: string): Option<(string, string)> {
    var t := Trim(line);
    if t == [] || t[0] == '#' then None else ParseLine(t)
  }

  /** The map the lines build, each pair's value expanded against the lines before it. */
  function ParseLines(lines: seq<string>, processEnv: map<string, string>): map<string, string> {
    if lines == [] then map[]
    else
      var env := ParseLines(lines[..|lines| - 1], processEnv);
      match LineEntry(lines[|lines| - 1])
      case None => env
      case Some(kv) => env[kv.0 := Expanded(kv.1, env, processEnv)]
  }

  /** One more line adds its pair, if any, to the map of the lines before it. */
  lemma ParseLinesStep(lines: seq<string>, i: nat, processEnv: map<string, string>)
    requires i < |lines|
    ensures ParseLines(lines[..i + 1], processEnv) ==
      match LineEntry(lines[i])
      case None => ParseLines(lines[..i], processEnv)
      case Some(kv) => ParseLines(lines[..i], processEnv)[kv.0 := Expanded(kv.1, ParseLines(lines[..i], processEnv), processEnv)]
  {
    assert lines[..i + 1][..i] == lines[..i];
  }

  /** `parse_content`: one pass over the lines, a later key overwriting an earlier one. */
  method ParseContent(content: string, processEnv: map<string, string>) returns (env: map<string, string>)
    ensures env == ParseLines(Lines(content), processEnv)
  {
    var lines := Lines(content);
    env := map[];
    for i := 0 to |lines|
      invariant env == ParseLines(lines[..i], processEnv)
    {
      ParseLinesStep(lines, i, processEnv);
      var trimmed := Trim(lines[i]);
      if trimmed == [] || trimmed[0] == '#' {
        continue;
      }
      match ParseLine(trimmed)
      case Some(kv) =>
        var expanded := ExpandVariables(kv.1, env, processEnv);
        env := env[kv.0 := expanded];
      case None =>
    }
    assert lines[..|lines|] == lines;
  }

  /** `parse_file`: the file's text when it exists and can be read (`Some`), else an empty map. */
  method ParseFile(contents: Option<string>, processEnv: map<string, string>) returns (env: map<string, string>)
    ensures contents.None? ==> env == map[]
    ensures contents.Some? ==> env == ParseLines(Lines(contents.value), processEnv)
  {
    match contents
    case None =>
      env := map[];
    case Some(text) =>
      env := ParseContent(text, processEnv);
  }

  /** Whether a line assigns the key `k`. */
  predicate DefinesKey(line: string, k: string) {
    LineEntry(line).Some? && LineEntry(line).value.0 == k
  }

  /** A key is stored exactly when some line defines it. */
  lemma {:induction false} ParseLinesKeys(lines: seq<string>, processEnv: map<string, string>, k: string)
    ensures k in ParseLines(lines, processEnv) <==> exists i :: 0 <= i < |lines| && DefinesKey(lines[i], k)
  {
    if lines != [] {
      var init := lines[..|lines| - 1];
      var last := lines[|lines| - 1];
      ParseLinesKeys(init, processEnv, k);
      assert k in ParseLines(lines, processEnv) <==> k in ParseLines(init, processEnv) || DefinesKey(last, k);
      assert forall i :: 0 <= i < |init| ==> init[i] == lines[i];
    }
  }

  /** A key's stored value comes from the last line defining it, expanded against the lines before that one. */
  lemma {:induction false} LastDefinitionWins(lines: seq<string>, processEnv: map<string, string>, i: nat, k: string, v: string)
    requires i < |lines| && LineEntry(lines[i]) == Some((k, v))
    requires forall j :: i < j < |lines| ==> LineEntry(lines[j]).None? || LineEntry(lines[j]).value.0 != k
    ensures k in ParseLines(lines, processEnv)
    ensures ParseLines(lines, processEnv)[k] == Expanded(v, ParseLines(lines[..i], processEnv), processEnv)
  {
    var init := lines[..|lines| - 1];
    if i < |lines| - 1 {
      forall j | i < j < |init| ensures LineEntry(init[j]).None? || LineEntry(init[j]).value.0 != k {
        assert init[j] == lines[j];
      }
      assert init[i] == lines[i];
      LastDefinitionWins(init, processEnv, i, k, v);
      assert init[..i] == lines[..i];
    } else {
      assert init == lines[..i];
    }
  }

  // ---------------------------------------------------------------- values and schemas

  /** A `serde_json::Value`: strings, booleans and numbers are told apart; anything else keeps its text. */
  datatype Json = JString(s: string) | JBool(b: bool) | JNumber(n: real) | JOther(text: string)

  /** The spellings `get_boolean` and the boolean validator accept, after lower-casing. */
  const TrueWords: set<string> := {"true", "1", "yes", "on"}
  const FalseWords: set<string> := {"false", "0", "no", "off"}

  function BooleanWord(s: string): (r: Option<bool>)
    ensures r == Some(true) <==> ToLower(s) in TrueWords
    ensures r == Some(false) <==> ToLower(s) in FalseWords
  {
    var l := ToLower(s);
    if l in TrueWords then Some(true) else if l in FalseWords then Some(false) else None
  }

  datatype Validator = Validator(
    validatorType: string,
    required: Option<bool>,
    defaultValue: Option<Json>,
    min: Option<real>,
    max: Option<real>,
    pattern: Option<string>)

  /**
   * What validation needs from outside: number parsing, the printing of a
   * bound, regular expressions (an error text for a pattern that does not
   * compile, else whether the value matches) and URL parsing.
   */
  datatype Oracle = Oracle(
    parseNumber: string -> Option<real>,
    numberText: real -> string,
    regexMatch: (string, string) -> Result<bool, string>,
    isUrl: string -> bool)

  /** `min as usize`: truncation toward zero, negative bounds saturating at 0. */
  function ToUsize(x: real): nat {
    if x <= 0.0 then 0 else x.Floor
  }

  const NotABoolean := "Value must be a boolean (true/false, 1/0, yes/no, on/off)"
  const KnownTypes: set<string> := {"string", "number", "boolean", "url"}

  /**
   * `validate_value`: a string within its length bounds and pattern, a
   * number within its bounds, a boolean word, a URL; any other validator
   * type is an error.
   */
  function ValidateValue(value: string, v: Validator, oracle: Oracle): (r: Result<Json, string>)
    ensures v.validatorType == "boolean" ==>
      (r.Success? <==> BooleanWord(value).Some?) &&
      (r.Success? ==> r.value == JBool(BooleanWord(value).value)) &&
      (r.Failure? ==> r.error == NotABoolean)
    ensures v.validatorType == "string" && r.Success? ==>
      r.value == JString(value) &&
      (v.min.Some? ==> |value| >= ToUsize(v.min.value)) && (v.max.Some? ==> |value| <= ToUsize(v.max.value))
    ensures v.validatorType == "string" && v.min.Some? && |value| < ToUsize(v.min.value) ==>
      r == Failure("String must be at least " + oracle.numberText(v.min.value) + " characters long")
    ensures v.validatorType !in KnownTypes ==> r == Failure("Unknown validator type: " + v.validatorType)
  {
    if v.validatorType == "string" then
      if v.min.Some? && |value| < ToUsize(v.min.value) then
        Failure("String must be at least " + oracle.numberText(v.min.value) + " characters long")
      else if v.max.Some? && |value| > ToUsize(v.max.value) then
        Failure("String must be at most " + oracle.numberText(v.max.value) + " characters long")
      else if v.pattern.Some? then
        match oracle.regexMatch(v.pattern.value, value)
        case Failure(e) => Failure("Invalid regex pattern: " + e)
        case Success(matched) =>
          if matched then Success(JString(value)) else Failure("String does not match required pattern")
      else Success(JString(value))
    else if v.validatorType == "number" then
      match oracle.parseNumber(value)
      case None => Failure("Value must be a valid number")
      case Some(n) =>
        if v.min.Some? && n < v.min.value then Failure("Number must be at least " + oracle.numberText(v.min.value))
        else if v.max.Some? && n > v.max.value then Failure("Number must be at most " + oracle.numberText(v.max.value))
        else Success(JNumber(n))
    else if v.validatorType == "boolean" then
      match BooleanWord(value)
      case Some(b) => Success(JBool(b))
      case None => Failure(NotABoolean)
    else if v.validatorType == "url" then
      if oracle.isUrl(value) then Success(JString(value)) else Failure("Value must be a valid URL")
    else Failure("Unknown validator type: " + v.validatorType)
  }

  /** What one schema entry contributes: an error, a data entry, or nothing. */
  datatype Outcome = Reject(message: string) | Accept(value: Json) | Skip

  function MissingMessage(key: string): string {
    "Required environment variable '" + key + "' is missing"
  }

  function ValidationError(key: string, e: string): string {
    "Validation error for '" + key + "': " + e
  }

  /** The body of the loop in `validate_schema`, for one key. */
  function KeyOutcome(key: string, v: Validator, envVars: map<string, string>, oracle: Oracle): (r: Outcome)
    ensures v.required == Some(true) && key !in envVars ==> r == Reject(MissingMessage(key))
    ensures key in envVars && envVars[key] != [] ==>
      match ValidateValue(envVars[key], v, oracle)
      case Success(parsed) => r == Accept(parsed)
      case Failure(e) => r == Reject(ValidationError(key, e))
    ensures key !in envVars && v.required != Some(true) && v.defaultValue.None? ==> r == Skip
  {
    var required := v.required.GetOr(false);
    if required && key !in envVars then Reject(MissingMessage(key))
    else
      var value := if key in envVars then envVars[key]
                   else if v.defaultValue.Some? && v.defaultValue.value.JString? then v.defaultValue.value.s
                   else "";
      if value == [] && !required then
        if v.defaultValue.Some? then Accept(v.defaultValue.value) else Skip
      else
        match ValidateValue(value, v, oracle)
        case Success(parsed) => Accept(parsed)
        case Failure(e) => Reject(ValidationError(key, e))
  }

  datatype ValidationResult = ValidationResult(valid: bool, errors: seq<string>, data: map<string, Json>)

  /** Every schema key's outcome. */
  function Outcomes(schema: map<string, Validator>, envVars: map<string, string>, oracle: Oracle): (r: map<string, Outcome>)
    ensures r.Keys == schema.Keys
    ensures forall k :: k in r ==> r[k] == KeyOutcome(k, schema[k], envVars, oracle)
  {
    map k | k in schema :: KeyOutcome(k, schema[k], envVars, oracle)
  }

  /** The keys among `keys` whose outcome is an error. */
  ghost function RejectedKeys(keys: set<string>, outcomes: map<string, Outcome>): set<string>
    requires keys <= outcomes.Keys
  {
    set k | k in keys && outcomes[k].Reject?
  }

  /** The keys among `keys` whose outcome is a data entry. */
  ghost function AcceptedKeys(keys: set<string>, outcomes: map<string, Outcome>): set<string>
    requires keys <= outcomes.Keys
  {
    set k | k in keys && outcomes[k].Accept?
  }

  /** Some key among `keys` has the error message `e`. */
  ghost predicate RejectsWith(keys: set<string>, outcomes: map<string, Outcome>, e: string)
    requires keys <= outcomes.Keys
  {
    exists k :: k in keys && outcomes[k] == Reject(e)
  }

  /** What the loop of `validate_schema` holds after visiting the keys `done`. */
  ghost predicate Collected(done: set<string>, outcomes: map<string, Outcome>, errors: seq<string>, data: map<string, Json>)
    requires done <= outcomes.Keys
  {
    data.Keys == AcceptedKeys(done, outcomes) &&
    (forall k :: k in data ==> Accept(data[k]) == outcomes[k]) &&
    |errors| == |RejectedKeys(done, outcomes)| &&
    (forall e :: e in errors <==> RejectsWith(done, outcomes, e))
  }

  /** The error list after one more outcome. */
  function AddError(errors: seq<string>, o: Outcome): seq<string> {
    if o.Reject? then errors + [o.message] else errors
  }

  /** The data after one more outcome. */
  function AddData(data: map<string, Json>, key: string, o: Outcome): map<string, Json> {
    if o.Accept? then data[key := o.value] else data
  }

  /** Visiting one more key adds it to the rejected keys exactly when its outcome is an error. */
  lemma RejectedStep(done: set<string>, key: string, outcomes: map<string, Outcome>)
    requires done <= outcomes.Keys && key in outcomes && key !in done
    ensures |RejectedKeys(done + {key}, outcomes)| ==
      |RejectedKeys(done, outcomes)| + (if outcomes[key].Reject? then 1 else 0)
  {
    assert key !in RejectedKeys(done, outcomes);
    assert RejectedKeys(done + {key}, outcomes) ==
      RejectedKeys(done, outcomes) + (if outcomes[key].Reject? then {key} else {});
  }

  /** Visiting one more key adds it to the accepted keys exactly when its outcome is a data entry. */
  lemma AcceptedStep(done: set<string>, key: string, outcomes: map<string, Outcome>)
    requires done <= outcomes.Keys && key in outcomes && key !in done
    ensures AcceptedKeys(done + {key}, outcomes) ==
      AcceptedKeys(done, outcomes) + (if outcomes[key].Accept? then {key} else {})
  {
  }

  /** Visiting one more key adds its message, if any, to the messages. */
  lemma MessagesStep(done: set<string>, key: string, outcomes: map<string, Outcome>, errors: seq<string>)
    requires done <= outcomes.Keys && key in outcomes
    requires forall e :: e in errors <==> RejectsWith(done, outcomes, e)
    ensures forall e :: e in AddError(errors, outcomes[key]) <==> RejectsWith(done + {key}, outcomes, e)
  {
    forall e ensures e in AddError(errors, outcomes[key]) <==> RejectsWith(done + {key}, outcomes, e) {
      if outcomes[key] == Reject(e) {
        assert key in done + {key};
      }
    }
  }

  /** Visiting one more key keeps the loop's invariant. */
  lemma CollectStep(done: set<string>, key: string, outcomes: map<string, Outcome>, errors: seq<string>, data: map<string, Json>)
    requires done <= outcomes.Keys && key in outcomes && key !in done
    requires Collected(done, outcomes, errors, data)
    ensures Collected(done + {key}, outcomes, AddError(errors, outcomes[key]), AddData(data, key, outcomes[key]))
  {
    RejectedStep(done, key, outcomes);
    AcceptedStep(done, key, outcomes);
    MessagesStep(done, key, outcomes, errors);
  }

  /**
   * `validate_schema`: the keys are visited in an order the map does not fix;
   * each error entry adds its message, each data entry its value, and the
   * result is valid exactly when no message was added.
   */
  method ValidateSchema(schema: map<string, Validator>, envVars: map<string, string>, oracle: Oracle)
    returns (r: ValidationResult)
    ensures r.valid <==> r.errors == []
    ensures Collected(schema.Keys, Outcomes(schema, envVars, oracle), r.errors, r.data)
  {
    var outcomes := Outcomes(schema, envVars, oracle);
    var errors: seq<string> := [];
    var data: map<string, Json> := map[];
    var remaining := schema.Keys;
    while remaining != {}
      invariant remaining <= schema.Keys
      invariant Collected(schema.Keys - remaining, outcomes, errors, data)
      decreases remaining
    {
      var key :| key in remaining;
      CollectStep(schema.Keys - remaining, key, outcomes, errors, data);
      assert schema.Keys - (remaining - {key}) == (schema.Keys - remaining) + {key};
      remaining := remaining - {key};
      match outcomes[key]
      case Reject(message) =>
        errors := errors + [message];
      case Accept(value) =>
        data := data[key := value];
      case Skip =>
    }
    assert schema.Keys - remaining == schema.Keys;
    r := ValidationResult(errors == [], errors, data);
  }

  // ---------------------------------------------------------------- the parser object

  class EnvParser {
    var envVars: map<string, string>

    /** `EnvParser::new` and `create`. */
    constructor ()
      ensures envVars == map[]
    {
      envVars := map[];
    }

    /** `load_from_string`: the stored map becomes the parsed content. */
    method LoadFromString(content: string, processEnv: map<string, string>)
      modifies this
      ensures envVars == ParseLines(Lines(content), processEnv)
    {
      envVars := ParseContent(content, processEnv);
    }

    /** `load_from_file`: the stored map becomes what `parse_file` reads. */
    method LoadFromFile(contents: Option<string>, processEnv: map<string, string>)
      modifies this
      ensures contents.None? ==> envVars == map[]
      ensures contents.Some? ==> envVars == ParseLines(Lines(contents.value), processEnv)
    {
      envVars := ParseFile(contents, processEnv);
    }

    /** `get`: the stored value, else the default, else the empty string. */
    function Get(key: string, default: Option<string>): (r: string)
      reads this
      ensures key in envVars ==> r == envVars[key]
      ensures key !in envVars && default.Some? ==> r == default.value
      ensures key !in envVars && default.None? ==> r == ""
    {
      if key in envVars then envVars[key] else default.GetOr("")
    }

    /** `get_number`: a stored value that parses as a number, else the default, else 0. */
    function GetNumber(key: string, default: Option<real>, parseNumber: string -> Option<real>): (r: real)
      reads this
      ensures key in envVars && parseNumber(envVars[key]).Some? ==> r == parseNumber(envVars[key]).value
      ensures (key !in envVars || parseNumber(envVars[key]).None?) ==> r == default.GetOr(0.0)
    {
      if key in envVars && parseNumber(envVars[key]).Some? then parseNumber(envVars[key]).value
      else default.GetOr(0.0)
    }

    /**
     * `get_boolean`: a stored value is true exactly when it is a true word;
     * any other stored text is false whatever the default; the default is
     * used only for a missing key.
     */
    function GetBoolean(key: string, default: Option<bool>): (r: bool)
      reads this
      ensures key in envVars ==> (r <==> ToLower(envVars[key]) in TrueWords)
      ensures key !in envVars ==> r == default.GetOr(false)
    {
      if key in envVars then BooleanWord(envVars[key]) == Some(true) else default.GetOr(false)
    }

    /** `get_array`: the stored value split on the separator (default ","), each piece trimmed. */
    function GetArray(key: string, separator: Option<string>): (r: seq<string>)
      reads this
      ensures key !in envVars ==> r == []
      ensures key in envVars ==>
        var pieces := SplitStr(envVars[key], separator.GetOr(","));
        |r| == |pieces| && forall i :: 0 <= i < |r| ==> r[i] == Trim(pieces[i])
    {
      if key in envVars then TrimAll(SplitStr(envVars[key], separator.GetOr(","))) else []
    }

    /** `has`. */
    function Has(key: string): (r: bool)
      reads this
      ensures r <==> key in envVars
    {
      key in envVars
    }

    /** `all`: a copy of the stored map. */
    function All(): (r: map<string, string>)
      reads this
      ensures forall k :: k in r <==> Has(k)
      ensures forall k :: k in r ==> r[k] == Get(k, None)
    {
      envVars
    }

    /**
     * `validate`: a schema whose JSON does not deserialise (`None` here) is
     * read as an empty schema, which is valid.
     */
    method Validate(schemaJson: Option<map<string, Validator>>, oracle: Oracle) returns (r: ValidationResult)
      ensures schemaJson.None? ==> r == ValidationResult(true, [], map[])
      ensures var schema := schemaJson.GetOr(map[]);
        r.valid <==> forall k :: k in schema ==> !KeyOutcome(k, schema[k], envVars, oracle).Reject?
      ensures var schema := schemaJson.GetOr(map[]);
        forall k :: k in r.data <==> k in schema && KeyOutcome(k, schema[k], envVars, oracle).Accept?
      ensures var schema := schemaJson.GetOr(map[]);
        forall k :: k in r.data ==> Accept(r.data[k]) == KeyOutcome(k, schema[k], envVars, oracle)
    {
      var schema := schemaJson.GetOr(map[]);
      r := ValidateSchema(schema, envVars, oracle);
      var outcomes := Outcomes(schema, envVars, oracle);
      if r.errors != [] {
        assert r.errors[0] in r.errors;
      } else {
        forall k | k in schema ensures !KeyOutcome(k, schema[k], envVars, oracle).Reject? {
          if outcomes[k].Reject? {
            assert RejectsWith(schema.Keys, outcomes, outcomes[k].message);
          }
        }
      }
    }
  }

  /** Every piece trimmed. */
  function TrimAll(pieces: seq<string>): (r: seq<string>)
    ensures |r| == |pieces| && forall i :: 0 <= i < |r| ==> r[i] == Trim(pieces[i])
  {
    if pieces == [] then [] else [Trim(pieces[0])] + TrimAll(pieces[1..])
  }

  /** A value without the separator comes back as one trimmed piece. */
  lemma GetArraySingle(p: EnvParser, key: string, sep: string)
    requires key in p.envVars && sep != [] && !Contains(p.envVars[key], sep)
    ensures p.GetArray(key, Some(sep)) == [Trim(p.envVars[key])]
  {
  }
}
