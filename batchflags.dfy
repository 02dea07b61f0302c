/** The per-corporate batch flag registry: each corporate has a list of
    `{flag, config}` entries; flags come from a configured list of known
    flags. The database collection is held as a map from corporate to its
    entries. */
module BatchFlags {
  import opened Wrappers

  /** A flag's configuration object, kept opaque: key to text. */
  type Config = map<string, string>

  /** One `{flag, config}` entry of a corporate. */
  datatype Entry = Entry(flag: string, config: Config)

  /** The collection: corporate to its flag entries. */
  type Records = map<string, seq<Entry>>

  /** What a request answers: whether it succeeded, and its message. */
  datatype Reply = Reply(success: bool, message: string)

  /** A request's effect: the new collection and the reply. */
  datatype Outcome = Outcome(records: Records, reply: Reply)

  /** The reply to a flag that is not configured, or not enabled for the corporate. */
  const InvalidFlag: string := "Please provide a valid flag."

  /** `flags.map(item => item.flag)`. */
  function FlagsOf(es: seq<Entry>): seq<string>
  {
    seq(|es|, k requires 0 <= k < |es| => es[k].flag)
  }

  /** The entries whose flag is not `flag`, in order: the `filter` of the delete. */
  function WithoutFlag(es: seq<Entry>, flag: string): seq<Entry>
  {
    if es == [] then []
    else WithoutFlag(es[..|es| - 1], flag) + (if es[|es| - 1].flag != flag then [es[|es| - 1]] else [])
  }

  /** The entries with `config` set on every entry for `flag`: the `map` of the edit. */
  function WithConfig(es: seq<Entry>, flag: string, config: Config): seq<Entry>
  {
    seq(|es|, k requires 0 <= k < |es| => if es[k].flag == flag then es[k].(config := config) else es[k])
  }

  /** A request field as the validators see it: absent, a string, a plain
      object, or any other JSON value (a number, a boolean, an array, null). */
  datatype Param = Absent | Str(text: string) | Obj(fields: Config) | OtherValue

  /** The validators' messages, one per field. */
  const CorporateMessage: string := "Please provide a valid corporate."
  const FlagMessage: string := "Please provide a valid flag"
  const ConfigMessage: string := "Please provide a valid config."

  /** `notEmpty().isString()`: a string with at least one character. */
  predicate NonEmptyString(p: Param)
  {
    p.Str? && p.text != ""
  }

  /** The first validation error of a request, fields checked in the order
      corporate, flag, config; `config` is `None` for the delete, which does
      not check it. `notEmpty().isObject()` accepts any plain object, `{}`
      included, since its string form is not empty. */
  function FirstInvalid(corporate: Param, flag: Param, config: Option<Param>): Option<string>
  {
    if !NonEmptyString(corporate) then Some(CorporateMessage)
    else if !NonEmptyString(flag) then Some(FlagMessage)
    else if config.Some? && !config.value.Obj? then Some(ConfigMessage)
    else None
  }

  /** The whole `addBatchFlagForCorporate` handler: validation, then `Add`. */
  function AddRequest(known: seq<string>, records: Records, corporate: Param, flag: Param, config: Param): Outcome
  {
    match FirstInvalid(corporate, flag, Some(config))
    case Some(m) => Outcome(records, Reply(false, m))
    case None => Add(known, records, corporate.text, flag.text, config.fields)
  }

  /** The whole `deleteBatchFlagForCorporate` handler: validation, then `Delete`. */
  function DeleteRequest(known: seq<string>, records: Records, corporate: Param, flag: Param): Outcome
  {
    match FirstInvalid(corporate, flag, None)
    case Some(m) => Outcome(records, Reply(false, m))
    case None => Delete(known, records, corporate.text, flag.text)
  }

  /** The whole `editFlagConfig` handler: validation, then `Edit`. */
  function EditRequest(known: seq<string>, records: Records, corporate: Param, flag: Param, config: Param): Outcome
  {
    match FirstInvalid(corporate, flag, Some(config))
    case Some(m) => Outcome(records, Reply(false, m))
    case None => Edit(known, records, corporate.text, flag.text, config.fields)
  }

  /** `addBatchFlagForCorporate` once its fields are valid. */
  function Add(known: seq<string>, records: Records, corporate: string, flag: string, config: Config): Outcome
  {
    if flag !in known then Outcome(records, Reply(false, InvalidFlag))
    else if corporate !in records then
      Outcome(records[corporate := [Entry(flag, config)]], Reply(true, "Flag " + flag + " is added to the Corporate"))
    else if flag in FlagsOf(records[corporate]) then
      Outcome(records, Reply(false, "Corporate : " + flag + " : Flag " + flag + " already enabled."))
    else
      Outcome(records[corporate := records[corporate] + [Entry(flag, config)]],
              Reply(true, "Flag " + flag + " is added to the Corporate"))
  }

  /** `deleteBatchFlagForCorporate` once its fields are valid. */
  function Delete(known: seq<string>, records: Records, corporate: string, flag: string): Outcome
  {
    if flag !in known then Outcome(records, Reply(false, InvalidFlag))
    else if corporate !in records then Outcome(records, Reply(false, "Corporate is not exists."))
    else if flag !in FlagsOf(records[corporate]) then Outcome(records, Reply(false, InvalidFlag))
    else
      Outcome(records[corporate := WithoutFlag(records[corporate], flag)],
              Reply(true, "Flag " + flag + " has deleted from the Corporate " + corporate))
  }

  /** `editFlagConfig` once its fields are valid. */
  function Edit(known: seq<string>, records: Records, corporate: string, flag: string, config: Config): Outcome
  {
    if flag !in known then Outcome(records, Reply(false, InvalidFlag))
    else if corporate !in records then Outcome(records, Reply(false, "Corporate not found."))
    else if flag !in FlagsOf(records[corporate]) then Outcome(records, Reply(false, "Please provide a valid flag"))
    else
      Outcome(records[corporate := WithConfig(records[corporate], flag, config)],
              Reply(true, flag + " has updated config."))
  }

  /** `corporateFlags`: the corporate's entries, or the error for an empty
      corporate name or a corporate without a record. */
  function CorporateFlags(records: Records, corporate: string): Result<seq<Entry>>
  {
    if corporate == "" then Err("Please provide a valid corporate")
    else if corporate !in records then Err("No Flags found for corporate " + corporate)
    else Ok(records[corporate])
  }

  /** The registry object: the known flags and the collection. */
  class FlagRegistry {
    /** `config.getFlags()`. */
    const known: seq<string>
    var records: Records

    constructor (known: seq<string>, records: Records)
      ensures this.known == known && this.records == records
    {
      this.known := known;
      this.records := records;
    }

    method AddBatchFlagForCorporate(corporate: Param, flag: Param, config: Param) returns (reply: Reply)
      modifies this
      ensures Outcome(records, reply) == AddRequest(known, old(records), corporate, flag, config)
    {
      var invalid := FirstInvalid(corporate, flag, Some(config));
      if invalid.Some? {
        return Reply(false, invalid.value);
      }
      var c, f := corporate.text, flag.text;
      if f !in known {
        return Reply(false, InvalidFlag);
      }
      if c !in records {
        records := records[c := [Entry(f, config.fields)]];
      } else {
        if f in FlagsOf(records[c]) {
          return Reply(false, "Corporate : " + f + " : Flag " + f + " already enabled.");
        }
        records := records[c := records[c] + [Entry(f, config.fields)]];
      }
      reply := Reply(true, "Flag " + f + " is added to the Corporate");
    }

    method DeleteBatchFlagForCorporate(corporate: Param, flag: Param) returns (reply: Reply)
      modifies this
      ensures Outcome(records, reply) == DeleteRequest(known, old(records), corporate, flag)
    {
      var invalid := FirstInvalid(corporate, flag, None);
      if invalid.Some? {
        return Reply(false, invalid.value);
      }
      var c, f := corporate.text, flag.text;
      if f !in known {
        return Reply(false, InvalidFlag);
      }
      if c !in records {
        return Reply(false, "Corporate is not exists.");
      }
      if f !in FlagsOf(records[c]) {
        return Reply(false, InvalidFlag);
      }
      records := records[c := WithoutFlag(records[c], f)];
      reply := Reply(true, "Flag " + f + " has deleted from the Corporate " + c);
    }

    method EditFlagConfig(corporate: Param, flag: Param, config: Param) returns (reply: Reply)
      modifies this
      ensures Outcome(records, reply) == EditRequest(known, old(records), corporate, flag, config)
    {
      var invalid := FirstInvalid(corporate, flag, Some(config));
      if invalid.Some? {
        return Reply(false, invalid.value);
      }
      var c, f := corporate.text, flag.text;
      if f !in known {
        return Reply(false, InvalidFlag);
      }
      if c !in records {
        return Reply(false, "Corporate not found.");
      }
      if f !in FlagsOf(records[c]) {
        return Reply(false, "Please provide a valid flag");
      }
      var es := SetConfig(records[c], f, config.fields);
      records := records[c := es];
      reply := Reply(true, f + " has updated config.");
    }
  }

  /** The loop of the edit, setting `config` on each entry for `flag`. */
  method SetConfig(es: seq<Entry>, flag: string, config: Config) returns (out: seq<Entry>)
    ensures out == WithConfig(es, flag, config)
  {
    out := es;
    var k := 0;
    while k < |out|
      invariant |out| == |es| && 0 <= k <= |es|
      invariant forall j | 0 <= j < |es| :: out[j] == if j < k && es[j].flag == flag then es[j].(config := config) else es[j]
    {
      if out[k].flag == flag {
        out := out[k := out[k].(config := config)];
      }
      k := k + 1;
    }
  }

  // ---------------------------------------------------------------------------
  // Properties
  // ---------------------------------------------------------------------------

  /** The entries' flags are all known flags. */
  ghost predicate AllKnown(known: seq<string>, es: seq<Entry>)
  {
    forall k | 0 <= k < |es| :: es[k].flag in known
  }

  /** No flag is enabled twice. */
  ghost predicate Distinct(es: seq<Entry>)
  {
    forall i, j | 0 <= i < j < |es| :: es[i].flag != es[j].flag
  }

  /** Every corporate's flags are known flags, each enabled at most once. */
  ghost predicate WellFormed(known: seq<string>, records: Records)
  {
    forall c | c in records :: AllKnown(known, records[c]) && Distinct(records[c])
  }

  /** A flag that is not configured is refused by all three requests, and
      nothing changes. */
  lemma UnknownFlagRefused(known: seq<string>, records: Records, corporate: string, flag: string, config: Config)
    requires flag !in known
    ensures Add(known, records, corporate, flag, config) == Outcome(records, Reply(false, InvalidFlag))
    ensures Delete(known, records, corporate, flag) == Outcome(records, Reply(false, InvalidFlag))
    ensures Edit(known, records, corporate, flag, config) == Outcome(records, Reply(false, InvalidFlag))
  {
  }

  /** Adding to a new corporate creates its record with exactly that entry;
      adding a flag it already has is refused; otherwise the entry goes at the
      end of its list. */
  lemma AddOutcomes(known: seq<string>, records: Records, corporate: string, flag: string, config: Config)
    requires flag in known
    ensures corporate !in records ==> Add(known, records, corporate, flag, config).records[corporate] == [Entry(flag, config)]
    ensures corporate in records && flag in FlagsOf(records[corporate]) ==>
              Add(known, records, corporate, flag, config).records == records
              && !Add(known, records, corporate, flag, config).reply.success
    ensures corporate in records && flag !in FlagsOf(records[corporate]) ==>
              Add(known, records, corporate, flag, config).records[corporate] == records[corporate] + [Entry(flag, config)]
    ensures forall c | c in records && c != corporate :: Add(known, records, corporate, flag, config).records[c] == records[c]
  {
  }

  /** Deleting keeps exactly the other flags' entries, each as many times as
      it occurred. */
  lemma {:induction false} WithoutFlagKeepsOthers(es: seq<Entry>, flag: string)
    ensures forall e :: e in WithoutFlag(es, flag) <==> e in es && e.flag != flag
    ensures forall e :: multiset(WithoutFlag(es, flag))[e] == if e.flag == flag then 0 else multiset(es)[e]
    ensures flag !in FlagsOf(es) ==> WithoutFlag(es, flag) == es
    decreases |es|
  {
    if es != [] {
      var init := es[..|es| - 1];
      var last := es[|es| - 1];
      WithoutFlagKeepsOthers(init, flag);
      assert es == init + [last];
      assert multiset(es) == multiset(init) + multiset{last};
      var tail := if last.flag != flag then [last] else [];
      assert WithoutFlag(es, flag) == WithoutFlag(init, flag) + tail;
      assert multiset(WithoutFlag(es, flag)) == multiset(WithoutFlag(init, flag)) + multiset(tail);
      if flag !in FlagsOf(es) {
        assert forall k | 0 <= k < |init| :: init[k].flag == FlagsOf(es)[k];
        assert last.flag == FlagsOf(es)[|es| - 1];
      }
    }
  }

  /** Deleting works entry by entry and keeps order: the entries kept from
      `a` come first, then those kept from `b`. */
  lemma {:induction false} WithoutFlagAppend(a: seq<Entry>, b: seq<Entry>, flag: string)
    ensures WithoutFlag(a + b, flag) == WithoutFlag(a, flag) + WithoutFlag(b, flag)
    decreases |b|
  {
    if b == [] {
      assert a + b == a;
    } else {
      var b' := b[..|b| - 1];
      var last := b[|b| - 1];
      assert (a + b)[..|a + b| - 1] == a + b';
      assert (a + b)[|a + b| - 1] == last;
      WithoutFlagAppend(a, b', flag);
    }
  }

  /** An entry of another flag keeps its place among the kept entries: what
      was before it stays before it, what was after it stays after it. */
  lemma WithoutFlagKeepsPlace(a: seq<Entry>, e: Entry, b: seq<Entry>, flag: string)
    requires e.flag != flag
    ensures WithoutFlag(a + [e] + b, flag) == WithoutFlag(a, flag) + [e] + WithoutFlag(b, flag)
  {
    WithoutFlagAppend(a + [e], b, flag);
    WithoutFlagAppend(a, [e], flag);
    assert [e][..0] == [];
  }

  /** A delete keeps distinct flags distinct. */
  lemma {:induction false} WithoutFlagKeepsDistinct(es: seq<Entry>, flag: string)
    requires Distinct(es)
    ensures Distinct(WithoutFlag(es, flag))
    decreases |es|
  {
    if es != [] {
      var init := es[..|es| - 1];
      var last := es[|es| - 1];
      WithoutFlagKeepsDistinct(init, flag);
      WithoutFlagKeepsOthers(init, flag);
      var w := WithoutFlag(init, flag);
      var w2 := WithoutFlag(es, flag);
      assert w2 == w + (if last.flag != flag then [last] else []);
      forall i, j | 0 <= i < j < |w2| ensures w2[i].flag != w2[j].flag {
        if j < |w| {
          assert w2[i] == w[i] && w2[j] == w[j];
        } else {
          assert w2[i] == w[i] && w2[j] == last;
          assert w[i] in w;
          var k :| 0 <= k < |init| && init[k] == w[i];
          assert es[k] == w[i];
        }
      }
    }
  }

  /** Adding keeps the registry well formed. */
  lemma AddKeepsWellFormed(known: seq<string>, records: Records, corporate: string, flag: string, config: Config)
    requires WellFormed(known, records)
    ensures WellFormed(known, Add(known, records, corporate, flag, config).records)
  {
    if flag in known && corporate in records && flag !in FlagsOf(records[corporate]) {
      var es := records[corporate];
      var added := es + [Entry(flag, config)];
      forall i, j | 0 <= i < j < |added| ensures added[i].flag != added[j].flag {
        if j == |es| {
          assert FlagsOf(es)[i] == es[i].flag;
        }
      }
      assert Distinct(added);
      assert AllKnown(known, added);
    }
  }

  /** Deleting keeps the registry well formed. */
  lemma DeleteKeepsWellFormed(known: seq<string>, records: Records, corporate: string, flag: string)
    requires WellFormed(known, records)
    ensures WellFormed(known, Delete(known, records, corporate, flag).records)
  {
    if flag in known && corporate in records && flag in FlagsOf(records[corporate]) {
      var es := records[corporate];
      var w := WithoutFlag(es, flag);
      WithoutFlagKeepsOthers(es, flag);
      WithoutFlagKeepsDistinct(es, flag);
      forall k | 0 <= k < |w| ensures w[k].flag in known {
        assert w[k] in w;
        var j :| 0 <= j < |es| && es[j] == w[k];
      }
      var after := records[corporate := w];
      assert after == Delete(known, records, corporate, flag).records;
      forall c | c in after ensures AllKnown(known, after[c]) && Distinct(after[c]) {
        if c == corporate {
          assert after[c] == w;
        }
      }
    }
  }

  /** Editing keeps the registry well formed. */
  lemma EditKeepsWellFormed(known: seq<string>, records: Records, corporate: string, flag: string, config: Config)
    requires WellFormed(known, records)
    ensures WellFormed(known, Edit(known, records, corporate, flag, config).records)
  {
    if flag in known && corporate in records && flag in FlagsOf(records[corporate]) {
      var es := records[corporate];
      var ed := WithConfig(es, flag, config);
      assert forall k | 0 <= k < |es| :: ed[k].flag == es[k].flag;
      assert AllKnown(known, ed) && Distinct(ed);
    }
  }

  /** Editing changes only the configs of the edited flag: the flags, their
      order and every other entry are kept. */
  lemma EditKeepsFlags(known: seq<string>, records: Records, corporate: string, flag: string, config: Config)
    requires flag in known && corporate in records && flag in FlagsOf(records[corporate])
    ensures var es := Edit(known, records, corporate, flag, config).records[corporate];
            FlagsOf(es) == FlagsOf(records[corporate])
            && forall k | 0 <= k < |es| && es[k].flag == flag :: es[k].config == config
  {
  }

  /** Deleting a flag that was appended last drops exactly that entry when the
      rest does not have it. */
  lemma WithoutAppended(es: seq<Entry>, e: Entry)
    requires e.flag !in FlagsOf(es)
    ensures WithoutFlag(es + [e], e.flag) == es
  {
    var added := es + [e];
    assert added[..|added| - 1] == es;
    WithoutFlagKeepsOthers(es, e.flag);
  }

  /** Adding a flag a corporate does not have and then deleting it gives the
      collection back. */
  lemma AddThenDelete(known: seq<string>, records: Records, corporate: string, flag: string, config: Config)
    requires flag in known && corporate in records && flag !in FlagsOf(records[corporate])
    ensures Delete(known, Add(known, records, corporate, flag, config).records, corporate, flag).records == records
  {
    var es := records[corporate];
    var added := es + [Entry(flag, config)];
    var mid := records[corporate := added];
    assert Add(known, records, corporate, flag, config).records == mid;
    assert FlagsOf(added)[|es|] == flag;
    WithoutAppended(es, Entry(flag, config));
    assert Delete(known, mid, corporate, flag).records == mid[corporate := es];
    assert mid[corporate := es] == records;
  }

  /** For a corporate that had no record, add then delete leaves a record with
      no flags rather than no record. */
  lemma AddThenDeleteLeavesEmptyRecord(known: seq<string>, records: Records, corporate: string, flag: string, config: Config)
    requires flag in known && corporate !in records
    ensures var after := Delete(known, Add(known, records, corporate, flag, config).records, corporate, flag).records;
            corporate in after && after[corporate] == []
  {
    var mid := records[corporate := [Entry(flag, config)]];
    assert Add(known, records, corporate, flag, config).records == mid;
    assert FlagsOf([Entry(flag, config)])[0] == flag;
    assert [] + [Entry(flag, config)] == [Entry(flag, config)];
    WithoutAppended([], Entry(flag, config));
  }

  /** Every corporate and every stored flag has a non-empty name. */
  ghost predicate Named(records: Records)
  {
    forall c | c in records :: c != "" && forall k | 0 <= k < |records[c]| :: records[c][k].flag != ""
  }

  /** The validators answer before anything else is looked at, field by field
      in the order corporate, flag, config, and a refused request changes
      nothing: an empty flag gets the validator's message even when the empty
      string is a known flag; the delete does not look at a config at all. */
  lemma InvalidFieldsRefused(known: seq<string>, records: Records, corporate: Param, flag: Param, config: Param)
    ensures !NonEmptyString(corporate) ==>
              AddRequest(known, records, corporate, flag, config) == Outcome(records, Reply(false, CorporateMessage))
              && DeleteRequest(known, records, corporate, flag) == Outcome(records, Reply(false, CorporateMessage))
              && EditRequest(known, records, corporate, flag, config) == Outcome(records, Reply(false, CorporateMessage))
    ensures NonEmptyString(corporate) && !NonEmptyString(flag) ==>
              AddRequest(known, records, corporate, flag, config) == Outcome(records, Reply(false, FlagMessage))
              && DeleteRequest(known, records, corporate, flag) == Outcome(records, Reply(false, FlagMessage))
              && EditRequest(known, records, corporate, flag, config) == Outcome(records, Reply(false, FlagMessage))
    ensures NonEmptyString(corporate) && NonEmptyString(flag) && !config.Obj? ==>
              AddRequest(known, records, corporate, flag, config) == Outcome(records, Reply(false, ConfigMessage))
              && EditRequest(known, records, corporate, flag, config) == Outcome(records, Reply(false, ConfigMessage))
              && DeleteRequest(known, records, corporate, flag) == Delete(known, records, corporate.text, flag.text)
  {
  }

  /** A whole add keeps the registry well formed and, since the validators
      refuse empty names, keeps every corporate and flag name non-empty. */
  lemma AddRequestKeepsInvariants(known: seq<string>, records: Records, corporate: Param, flag: Param, config: Param)
    requires WellFormed(known, records) && Named(records)
    ensures var r := AddRequest(known, records, corporate, flag, config).records; WellFormed(known, r) && Named(r)
  {
    if FirstInvalid(corporate, flag, Some(config)).None? {
      var c, f := corporate.text, flag.text;
      AddKeepsWellFormed(known, records, c, f, config.fields);
      var r := Add(known, records, c, f, config.fields).records;
      assert AddRequest(known, records, corporate, flag, config).records == r;
      assert forall d | d in r && d != c :: r[d] == records[d];
    }
  }

  /** A whole delete keeps the registry well formed and every name non-empty. */
  lemma DeleteRequestKeepsInvariants(known: seq<string>, records: Records, corporate: Param, flag: Param)
    requires WellFormed(known, records) && Named(records)
    ensures var r := DeleteRequest(known, records, corporate, flag).records; WellFormed(known, r) && Named(r)
  {
    if FirstInvalid(corporate, flag, None).None? {
      var c, f := corporate.text, flag.text;
      DeleteKeepsWellFormed(known, records, c, f);
      var r := Delete(known, records, c, f).records;
      assert DeleteRequest(known, records, corporate, flag).records == r;
      if c in records && f in known && f in FlagsOf(records[c]) {
        WithoutFlagKeepsOthers(records[c], f);
        var w := WithoutFlag(records[c], f);
        forall k | 0 <= k < |w| ensures w[k].flag != "" {
          assert w[k] in w;
        }
        assert r == records[c := w];
      }
    }
  }

  /** A whole edit keeps the registry well formed and every name non-empty. */
  lemma EditRequestKeepsInvariants(known: seq<string>, records: Records, corporate: Param, flag: Param, config: Param)
    requires WellFormed(known, records) && Named(records)
    ensures var r := EditRequest(known, records, corporate, flag, config).records; WellFormed(known, r) && Named(r)
  {
    if FirstInvalid(corporate, flag, Some(config)).None? {
      var c, f := corporate.text, flag.text;
      EditKeepsWellFormed(known, records, c, f, config.fields);
      var r := Edit(known, records, c, f, config.fields).records;
      assert EditRequest(known, records, corporate, flag, config).records == r;
    }
  }

  /** Listing fails for a corporate without a record, and lists the flag of
      any non-empty corporate it was just added to. */
  lemma ListingAfterAdd(known: seq<string>, records: Records, corporate: string, flag: string, config: Config)
    requires flag in known && corporate != ""
    ensures var l := CorporateFlags(Add(known, records, corporate, flag, config).records, corporate);
            l.Ok? && flag in FlagsOf(l.value)
    ensures corporate !in records ==> CorporateFlags(records, corporate) == Err("No Flags found for corporate " + corporate)
  {
    var e := Entry(flag, config);
    if corporate !in records {
      assert FlagsOf([e])[0] == flag;
    } else if flag !in FlagsOf(records[corporate]) {
      assert FlagsOf(records[corporate] + [e])[|records[corporate]|] == flag;
    }
  }
}
