/** Collection of machine-specific values (internal/machine/prompts.go).
    Standard input is a finite sequence of complete lines followed either by
    end of file or by a read failure; every read consumes one line. */
module Prompts {
  import opened Text
  import opened Manifest

  /** The text still to be read: whole lines (each without its '\n'), then
      either end of file (`failure == false`) or a read error. */
  datatype Input = Input(lines: seq<string>, failure: bool)

  datatype PromptError =
    | NoDefault(id: string)     // skipping prompts, required and no default
    | NotProvided(id: string)   // end of file on a required field without default
    | ReadFailed                // a read error other than end of file

  datatype PromptResult = PromptResult(id: string, values: map<string, string>)

  datatype MachineError =
    | CollectFailed(id: string, cause: PromptError)
    | MachineNotFound(id: string)
    | PromptFailed(cause: PromptError)

  // ---------------------------------------------------------------------
  // One field

  /** The answers a confirm field reads as yes. */
  predicate IsYes(t: string) {
    t == "y" || t == "yes" || t == "true" || t == "1"
  }

  /** The answers a confirm field reads as no; an empty answer is no. */
  predicate IsNo(t: string) {
    t == "n" || t == "no" || t == "false" || t == "0" || t == ""
  }

  /** What a confirm field makes of one line: "true", "false", or a
      rejection (`None`) that makes it ask again. */
  function ConfirmValue(line: string): (r: Option<string>)
    ensures var t := TrimSpace(ToLower(line));
            && (r == Some("true") <==> IsYes(t))
            && (r == Some("false") <==> IsNo(t))
            && (r.None? <==> !IsYes(t) && !IsNo(t))
  {
    var t := TrimSpace(ToLower(line));
    if IsYes(t) then Some("true")
    else if IsNo(t) then Some("false")
    else None
  }

  /** What the field keeps of an answer that was read: the answer trimmed,
      replaced by the default when empty, and rejected (`None`) when a
      required field would still be empty. */
  function Settle(f: PromptField, read: Option<string>): Option<string> {
    match read
    case None => None
    case Some(raw) =>
      var input := TrimSpace(raw);
      var input' := if input == "" && f.defaultValue != "" then f.defaultValue else input;
      if f.required && input' == "" then None else Some(input')
  }

  /** What one line gives for the field: its value, or `None` when the line
      is rejected and the field is asked for again. */
  function LineValue(f: PromptField, line: string): Option<string> {
    Settle(f, if f.kind == "confirm" then ConfirmValue(line) else Some(line))
  }

  /** The value at end of file: the default if there is one, else an error
      for a required field, else the empty string. */
  function EofValue(f: PromptField): (r: Result<string, PromptError>)
    ensures f.defaultValue != "" ==> r == Ok(f.defaultValue)
    ensures f.defaultValue == "" && f.required ==> r == Err(NotProvided(f.id))
    ensures f.defaultValue == "" && !f.required ==> r == Ok("")
  {
    if f.defaultValue != "" then Ok(f.defaultValue)
    else if f.required then Err(NotProvided(f.id))
    else Ok("")
  }

  /** The value given to a field under `SkipPrompts`. */
  function SkipValue(f: PromptField): Result<string, PromptError> {
    if f.required && f.defaultValue == "" then Err(NoDefault(f.id)) else Ok(f.defaultValue)
  }

  /** The value of one field and the input left after it. */
  function ResolveField(f: PromptField, skip: bool, input: Input): (Result<string, PromptError>, Input)
    decreases |input.lines|
  {
    if skip then (SkipValue(f), input)
    else if input.lines == [] then
      (if input.failure then Err(ReadFailed) else EofValue(f), input)
    else
      var rest := Input(input.lines[1..], input.failure);
      match LineValue(f, input.lines[0])
      case None => ResolveField(f, skip, rest)
      case Some(v) => (Ok(v), rest)
  }

  /** `collectSinglePrompt`: asks until a line is accepted or the input ends. */
  method CollectSinglePrompt(f: PromptField, skip: bool, input: Input)
    returns (r: Result<string, PromptError>, rest: Input)
    ensures (r, rest) == ResolveField(f, skip, input)
  {
    if skip {
      if f.required && f.defaultValue == "" {
        return Err(NoDefault(f.id)), input;
      }
      return Ok(f.defaultValue), input;
    }
    rest := input;
    while true
      invariant ResolveField(f, skip, rest) == ResolveField(f, skip, input)
      decreases |rest.lines|
    {
      if rest.lines == [] {
        if rest.failure {
          return Err(ReadFailed), rest;
        }
        if f.defaultValue != "" {
          return Ok(f.defaultValue), rest;
        }
        if f.required {
          return Err(NotProvided(f.id)), rest;
        }
        return Ok(""), rest;
      }
      var line := rest.lines[0];
      rest := Input(rest.lines[1..], rest.failure);
      if f.kind == "confirm" {
        line := TrimSpace(ToLower(line));
        if IsYes(line) {
          line := "true";
        } else if IsNo(line) {
          line := "false";
        } else {
          continue;
        }
      }
      line := TrimSpace(line);
      if line == "" && f.defaultValue != "" {
        line := f.defaultValue;
      }
      if f.required && line == "" {
        continue;
      }
      return Ok(line), rest;
    }
  }

  /** Under `SkipPrompts` no input is read: a required field without a
      default is an error, any other field gets exactly its default. */
  lemma SkipUsesDefault(f: PromptField, input: Input)
    ensures ResolveField(f, true, input).1 == input
    ensures f.required && f.defaultValue == "" ==> ResolveField(f, true, input).0 == Err(NoDefault(f.id))
    ensures !(f.required && f.defaultValue == "") ==> ResolveField(f, true, input).0 == Ok(f.defaultValue)
  {
  }

  /** A non-empty answer without surrounding white space (such as "true"
      or "false") is kept as it is, whatever the field's default. */
  lemma SettleWord(f: PromptField, w: string)
    requires w != [] && !IsSpace(w[0]) && !IsSpace(w[|w| - 1])
    ensures Settle(f, Some(w)) == Some(w)
  {
    TrimmedWord(w);
  }

  /** A confirm field's value is its normalised answer: trimming "true" or
      "false" again changes nothing, and neither is empty. */
  lemma ConfirmLine(f: PromptField, line: string)
    requires f.kind == "confirm"
    ensures LineValue(f, line) == ConfirmValue(line)
  {
    SettleWord(f, "true");
    SettleWord(f, "false");
    assert ConfirmValue(line) in {None, Some("true"), Some("false")};
  }

  /** A confirm field yields "true" exactly for y/yes/true/1 and "false"
      exactly for n/no/false/0/empty (after lower-casing and trimming), and
      asks again for anything else. */
  lemma ConfirmNormalisation(f: PromptField, line: string)
    requires f.kind == "confirm"
    ensures var t := TrimSpace(ToLower(line));
            && (LineValue(f, line) == Some("true") <==> IsYes(t))
            && (LineValue(f, line) == Some("false") <==> IsNo(t))
            && (LineValue(f, line).None? <==> !IsYes(t) && !IsNo(t))
  {
    ConfirmLine(f, line);
  }

  /** An empty confirm answer is "false", whatever the default. */
  lemma ConfirmNeverDefaults(f: PromptField, line: string)
    requires f.kind == "confirm"
    requires forall i :: 0 <= i < |line| ==> IsSpace(line[i])
    ensures LineValue(f, line) == Some("false")
  {
    ConfirmLine(f, line);
    ToLowerKeepsSpace(line);
    TrimAllSpace(line);
  }

  /** An empty text answer is replaced by a non-empty default. */
  lemma TextEmptyLineUsesDefault(f: PromptField, line: string)
    requires f.kind != "confirm" && f.defaultValue != ""
    requires TrimSpace(line) == ""
    ensures LineValue(f, line) == Some(f.defaultValue)
  {
  }

  /** Any other text answer is taken trimmed. */
  lemma TextLineTrimmed(f: PromptField, line: string)
    requires f.kind != "confirm" && TrimSpace(line) != ""
    ensures LineValue(f, line) == Some(TrimSpace(line))
  {
  }

  /** A required field without a default rejects an empty answer: the line
      is consumed and the field is asked for again. */
  lemma RequiredEmptyReprompts(f: PromptField, line: string, more: seq<string>, failure: bool)
    requires f.kind != "confirm" && f.required && f.defaultValue == ""
    requires TrimSpace(line) == ""
    ensures ResolveField(f, false, Input([line] + more, failure)) == ResolveField(f, false, Input(more, failure))
  {
    assert ([line] + more)[1..] == more;
  }

  /** A required field never resolves to the empty string. */
  lemma {:induction false} RequiredNeverEmpty(f: PromptField, skip: bool, input: Input)
    requires f.required
    ensures ResolveField(f, skip, input).0.Ok? ==> ResolveField(f, skip, input).0.value != ""
    decreases |input.lines|
  {
    if !skip && input.lines != [] && LineValue(f, input.lines[0]).None? {
      RequiredNeverEmpty(f, skip, Input(input.lines[1..], input.failure));
    }
  }

  /** `rest` is what is left of `input` after some lines were read. */
  predicate Consumed(input: Input, rest: Input) {
    && rest.failure == input.failure
    && |rest.lines| <= |input.lines|
    && rest.lines == input.lines[|input.lines| - |rest.lines|..]
  }

  lemma ConsumedTrans(a: Input, b: Input, c: Input)
    requires Consumed(a, b) && Consumed(b, c)
    ensures Consumed(a, c)
  {
    assert c.lines == a.lines[|a.lines| - |b.lines|..][|b.lines| - |c.lines|..];
  }

  /** Resolving a field only consumes lines from the front of the input, at
      least one when it reads at all. */
  lemma {:induction false} ResolveConsumes(f: PromptField, skip: bool, input: Input)
    ensures Consumed(input, ResolveField(f, skip, input).1)
    ensures !skip && input.lines != [] ==> |ResolveField(f, skip, input).1.lines| < |input.lines|
    decreases |input.lines|
  {
    if !skip && input.lines != [] {
      var tail := Input(input.lines[1..], input.failure);
      assert Consumed(input, tail);
      if LineValue(f, input.lines[0]).None? {
        assert ResolveField(f, skip, input) == ResolveField(f, skip, tail);
        ResolveConsumes(f, skip, tail);
        ConsumedTrans(input, tail, ResolveField(f, skip, tail).1);
      }
    }
  }

  // ---------------------------------------------------------------------
  // One machine config

  /** The values of `fields` added to `acc` one after the other, stopping at
      the first error; also the input left. */
  function CollectFrom(fields: seq<PromptField>, skip: bool, input: Input, acc: map<string, string>)
    : (Result<map<string, string>, PromptError>, Input)
    decreases |fields|
  {
    if fields == [] then (Ok(acc), input)
    else
      var (r, rest) := ResolveField(fields[0], skip, input);
      match r
      case Err(e) => (Err(e), rest)
      case Ok(v) => CollectFrom(fields[1..], skip, rest, acc[fields[0].id := v])
  }

  function FieldIds(fields: seq<PromptField>): set<string> {
    set k | 0 <= k < |fields| :: fields[k].id
  }

  /** `collectPrompts`: one value per field, under the config's id, or the
      first field error. */
  method CollectPrompts(mc: MachinePrompt, skip: bool, input: Input)
    returns (r: Result<PromptResult, PromptError>, rest: Input)
    ensures rest == CollectFrom(mc.prompts, skip, input, map[]).1
    ensures CollectFrom(mc.prompts, skip, input, map[]).0.Err? ==>
              r == Err(CollectFrom(mc.prompts, skip, input, map[]).0.error)
    ensures CollectFrom(mc.prompts, skip, input, map[]).0.Ok? ==>
              r == Ok(PromptResult(mc.id, CollectFrom(mc.prompts, skip, input, map[]).0.value))
  {
    var values: map<string, string> := map[];
    rest := input;
    var i := 0;
    while i < |mc.prompts|
      invariant 0 <= i <= |mc.prompts|
      invariant CollectFrom(mc.prompts[i..], skip, rest, values) == CollectFrom(mc.prompts, skip, input, map[])
    {
      assert mc.prompts[i..][1..] == mc.prompts[i + 1..];
      var value;
      value, rest := CollectSinglePrompt(mc.prompts[i], skip, rest);
      if value.Err? {
        return Err(value.error), rest;
      }
      values := values[mc.prompts[i].id := value.value];
      i := i + 1;
    }
    return Ok(PromptResult(mc.id, values)), rest;
  }

  /** A successful collection has exactly one key per field id, on top of
      what was there before. */
  lemma {:induction false} CollectKeys(fields: seq<PromptField>, skip: bool, input: Input, acc: map<string, string>)
    ensures var r := CollectFrom(fields, skip, input, acc).0;
            r.Ok? ==> r.value.Keys == acc.Keys + FieldIds(fields)
    decreases |fields|
  {
    if fields != [] {
      var (r, rest) := ResolveField(fields[0], skip, input);
      if r.Ok? {
        CollectKeys(fields[1..], skip, rest, acc[fields[0].id := r.value]);
        assert FieldIds(fields) == {fields[0].id} + FieldIds(fields[1..]) by {
          forall x | x in FieldIds(fields) ensures x in {fields[0].id} + FieldIds(fields[1..]) {
            var k :| 0 <= k < |fields| && fields[k].id == x;
            if k > 0 {
              assert fields[1..][k - 1].id == x;
            }
          }
          forall x | x in FieldIds(fields[1..]) ensures x in FieldIds(fields) {
            var k :| 0 <= k < |fields[1..]| && fields[1..][k].id == x;
            assert fields[k + 1].id == x;
          }
        }
      }
    }
  }

  /** Every field can be given its default without prompting. */
  predicate AllDefaultable(fields: seq<PromptField>) {
    forall k :: 0 <= k < |fields| ==> !(fields[k].required && fields[k].defaultValue == "")
  }

  predicate DistinctIds(fields: seq<PromptField>) {
    forall j, k :: 0 <= j < k < |fields| ==> fields[j].id != fields[k].id
  }

  /** Under `SkipPrompts` with distinct ids, every field gets its default and
      no input is read. */
  lemma {:induction false} SkipCollectsDefaults(fields: seq<PromptField>, input: Input, acc: map<string, string>)
    requires AllDefaultable(fields) && DistinctIds(fields)
    ensures var (r, rest) := CollectFrom(fields, true, input, acc);
            && rest == input
            && r.Ok?
            && (forall k :: 0 <= k < |fields| ==> fields[k].id in r.value && r.value[fields[k].id] == fields[k].defaultValue)
            && (forall key :: key in acc && key !in FieldIds(fields) ==> key in r.value && r.value[key] == acc[key])
    decreases |fields|
  {
    if fields != [] {
      var f := fields[0];
      var acc' := acc[f.id := f.defaultValue];
      var tail := fields[1..];
      assert AllDefaultable(tail) && DistinctIds(tail) by {
        forall k | 0 <= k < |tail| ensures !(tail[k].required && tail[k].defaultValue == "") {
          assert tail[k] == fields[k + 1];
        }
        forall j, k | 0 <= j < k < |tail| ensures tail[j].id != tail[k].id {
          assert tail[j] == fields[j + 1] && tail[k] == fields[k + 1];
        }
      }
      SkipCollectsDefaults(tail, input, acc');
      var r := CollectFrom(fields, true, input, acc).0;
      assert r == CollectFrom(tail, true, input, acc').0;
      forall k | 0 <= k < |fields| ensures fields[k].id in r.value && r.value[fields[k].id] == fields[k].defaultValue {
        if k == 0 {
          assert f.id !in FieldIds(tail);
        } else {
          assert fields[k] == tail[k - 1];
        }
      }
      forall key | key in acc && key !in FieldIds(fields) ensures key in r.value && r.value[key] == acc[key] {
        assert f.id in FieldIds(fields);
        assert key !in FieldIds(tail);
      }
    }
  }

  /** Under `SkipPrompts`, a required field without a default makes the whole
      config fail. */
  lemma {:induction false} SkipFailsWithoutDefault(fields: seq<PromptField>, input: Input, acc: map<string, string>)
    requires !AllDefaultable(fields)
    ensures CollectFrom(fields, true, input, acc).0.Err?
    decreases |fields|
  {
    var f := fields[0];
    if !(f.required && f.defaultValue == "") {
      var k :| 0 <= k < |fields| && fields[k].required && fields[k].defaultValue == "";
      assert fields[1..][k - 1] == fields[k];
      SkipFailsWithoutDefault(fields[1..], input, acc[f.id := f.defaultValue]);
    }
  }

  // ---------------------------------------------------------------------
  // All machine configs

  /** Every machine config collected in order from the shared input, or the
      first failure tagged with its config's id. */
  function CollectAll(mcs: seq<MachinePrompt>, skip: bool, input: Input)
    : (Result<seq<PromptResult>, MachineError>, Input)
    decreases |mcs|
  {
    if mcs == [] then (Ok([]), input)
    else
      var (r, rest) := CollectFrom(mcs[0].prompts, skip, input, map[]);
      match r
      case Err(e) => (Err(CollectFailed(mcs[0].id, e)), rest)
      case Ok(values) =>
        Prepend([PromptResult(mcs[0].id, values)], CollectAll(mcs[1..], skip, rest))
  }

  /** `done` put in front of a successful collection; a failure unchanged. */
  function Prepend(done: seq<PromptResult>, tail: (Result<seq<PromptResult>, MachineError>, Input))
    : (Result<seq<PromptResult>, MachineError>, Input)
  {
    match tail.0
    case Err(_) => tail
    case Ok(rs) => (Ok(done + rs), tail.1)
  }

  /** `CollectMachineConfig`. */
  method CollectMachineConfig(cfg: Config, skip: bool, input: Input)
    returns (r: Result<seq<PromptResult>, MachineError>, rest: Input)
    ensures (r, rest) == CollectAll(cfg.machineConfig, skip, input)
  {
    var mcs := cfg.machineConfig;
    var results: seq<PromptResult> := [];
    rest := input;
    var i := 0;
    assert mcs[0..] == mcs;
    assert CollectAll(mcs, skip, input).0.Ok? ==> [] + CollectAll(mcs, skip, input).0.value == CollectAll(mcs, skip, input).0.value;
    while i < |mcs|
      invariant 0 <= i <= |mcs|
      invariant CollectAll(mcs, skip, input) == Prepend(results, CollectAll(mcs[i..], skip, rest))
    {
      assert mcs[i..][1..] == mcs[i + 1..];
      ghost var before := rest;
      var one;
      one, rest := CollectPrompts(mcs[i], skip, rest);
      assert CollectAll(mcs[i..], skip, before) ==
        match CollectFrom(mcs[i].prompts, skip, before, map[]).0
        case Err(e) => (Err(CollectFailed(mcs[i].id, e)), rest)
        case Ok(values) => Prepend([PromptResult(mcs[i].id, values)], CollectAll(mcs[i + 1..], skip, rest));
      if one.Err? {
        return Err(CollectFailed(mcs[i].id, one.error)), rest;
      }
      ghost var tail := CollectAll(mcs[i + 1..], skip, rest);
      if tail.0.Ok? {
        assert results + ([one.value] + tail.0.value) == (results + [one.value]) + tail.0.value;
      }
      results := results + [one.value];
      i := i + 1;
    }
    assert mcs[i..] == [];
    assert results + [] == results;
    return Ok(results), rest;
  }

  /** A successful run yields one result per machine config, in order, each
      under its config's id. */
  lemma {:induction false} CollectAllShape(mcs: seq<MachinePrompt>, skip: bool, input: Input)
    ensures var r := CollectAll(mcs, skip, input).0;
            r.Ok? ==> |r.value| == |mcs| && forall k :: 0 <= k < |mcs| ==> r.value[k].id == mcs[k].id
    decreases |mcs|
  {
    if mcs != [] {
      var (r, rest) := CollectFrom(mcs[0].prompts, skip, input, map[]);
      if r.Ok? {
        CollectAllShape(mcs[1..], skip, rest);
      }
    }
  }

  /** The position of the first machine config with this id, or `|mcs|`. */
  function MachineIndex(mcs: seq<MachinePrompt>, id: string): (i: nat)
    ensures i <= |mcs|
    ensures i < |mcs| ==> mcs[i].id == id
    ensures forall j :: 0 <= j < i ==> mcs[j].id != id
  {
    if mcs == [] then 0 else if mcs[0].id == id then 0 else 1 + MachineIndex(mcs[1..], id)
  }

  /** `GetMachineConfigByID`: the first machine config with this id. */
  method GetMachineConfigByID(cfg: Config, id: string) returns (r: Option<MachinePrompt>)
    ensures var i := MachineIndex(cfg.machineConfig, id);
            && (i < |cfg.machineConfig| ==> r == Some(cfg.machineConfig[i]))
            && (i == |cfg.machineConfig| ==> r == None)
    ensures r.Some? ==> r.value.id == id
    ensures r.None? <==> forall k :: 0 <= k < |cfg.machineConfig| ==> cfg.machineConfig[k].id != id
  {
    var mcs := cfg.machineConfig;
    var i := 0;
    while i < |mcs|
      invariant 0 <= i <= |mcs|
      invariant forall j :: 0 <= j < i ==> mcs[j].id != id
    {
      if mcs[i].id == id {
        return Some(mcs[i]);
      }
      i := i + 1;
    }
    return None;
  }

  /** The first machine config with this id collected from `input`. */
  function CollectSingle(cfg: Config, id: string, skip: bool, input: Input): (Result<PromptResult, MachineError>, Input) {
    var i := MachineIndex(cfg.machineConfig, id);
    if i == |cfg.machineConfig| then (Err(MachineNotFound(id)), input)
    else
      var collected := CollectFrom(cfg.machineConfig[i].prompts, skip, input, map[]);
      if collected.0.Err? then (Err(PromptFailed(collected.0.error)), collected.1)
      else (Ok(PromptResult(id, collected.0.value)), collected.1)
  }

  /** `CollectSingleConfig`: collects the first machine config with this id;
      an unknown id is an error. */
  method CollectSingleConfig(cfg: Config, id: string, skip: bool, input: Input)
    returns (r: Result<PromptResult, MachineError>, rest: Input)
    ensures (r, rest) == CollectSingle(cfg, id, skip, input)
    ensures r.Ok? ==> r.value.id == id
    ensures r == Err(MachineNotFound(id)) <==> forall k :: 0 <= k < |cfg.machineConfig| ==> cfg.machineConfig[k].id != id
  {
    var found := GetMachineConfigByID(cfg, id);
    if found.None? {
      return Err(MachineNotFound(id)), input;
    }
    var one;
    one, rest := CollectPrompts(found.value, skip, input);
    if one.Err? {
      return Err(PromptFailed(one.error)), rest;
    }
    return Ok(one.value), rest;
  }

  datatype MachineEntry = MachineEntry(id: string, description: string)

  /** `ListMachineConfigs`: (id, description) of each machine config, in order. */
  method ListMachineConfigs(cfg: Config) returns (list: seq<MachineEntry>)
    ensures |list| == |cfg.machineConfig|
    ensures forall k :: 0 <= k < |list| ==>
              list[k] == MachineEntry(cfg.machineConfig[k].id, cfg.machineConfig[k].description)
  {
    list := [];
    for i := 0 to |cfg.machineConfig|
      invariant |list| == i
      invariant forall k :: 0 <= k < i ==>
                  list[k] == MachineEntry(cfg.machineConfig[k].id, cfg.machineConfig[k].description)
    {
      var mc := cfg.machineConfig[i];
      list := list + [MachineEntry(mc.id, mc.description)];
    }
  }
}
