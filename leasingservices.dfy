/** The self-contained helpers of the leasing service: phone-number
    normalisation, message lookup by language, `<%key>` placeholder
    substitution, the two SFTP row validators, grouping service tickets by the
    manager's e-mail, and the guarded `controlLPAFlow` switch. */
module LeasingServices {
  import opened Wrappers
  import opened JsText

  /** The JavaScript values the helpers tell apart by `typeof`. */
  datatype Value = Str(s: string) | Bool(b: bool) | Undefined | OtherValue

  // ---------------------------------------------------------------------------
  // phoneNumber
  // ---------------------------------------------------------------------------

  /** The four characters `phoneNumber` removes, in the order it removes them. */
  const Punctuation: seq<char> := ['(', ')', ' ', '-']

  /** The number after the four `replace` calls: each removes only the first
      occurrence of its character. */
  function Stripped(s: string): string
  {
    ReplaceFirst(ReplaceFirst(ReplaceFirst(ReplaceFirst(s, "(", ""), ")", ""), " ", ""), "-", "")
  }

  /** A number already in international form: it starts with "+" or "00". */
  predicate International(n: string)
  {
    "+" <= n || "00" <= n
  }

  /** `phoneNumber(number)`: undefined for a non-string; otherwise the stripped
      number, kept as it is when international and prefixed with "+1" when not. */
  function PhoneNumberOf(number: Value): Option<string>
  {
    if !number.Str? then None
    else
      var n := Stripped(number.s);
      if International(n) then Some(n) else Some("+1" + n)
  }

  /** `phoneNumber`, reassigning `number` one `replace` at a time. */
  method PhoneNumber(number: Value) returns (r: Option<string>)
    ensures r == PhoneNumberOf(number)
  {
    if !number.Str? {
      return None;
    }
    var n := number.s;
    n := ReplaceFirst(n, "(", "");
    n := ReplaceFirst(n, ")", "");
    n := ReplaceFirst(n, " ", "");
    n := ReplaceFirst(n, "-", "");
    if "+" <= n || "00" <= n {
      r := Some(n);
    } else {
      r := Some("+1" + n);
    }
  }

  /** Stripping takes away one of each punctuation character that occurs, and
      nothing else: a second "(" (say) survives. */
  lemma StrippedCount(s: string)
    ensures multiset(Stripped(s)) == multiset(s) - multiset(Punctuation)
  {
    StrippedStepwise(s);
    MinusPunctuation(multiset(s));
  }

  /** The four removals, one after the other. */
  lemma StrippedStepwise(s: string)
    ensures multiset(Stripped(s))
         == (((multiset(s) - multiset{'('}) - multiset{')'}) - multiset{' '}) - multiset{'-'}
  {
    var s1 := ReplaceFirst(s, "(", "");
    var s2 := ReplaceFirst(s1, ")", "");
    var s3 := ReplaceFirst(s2, " ", "");
    RemoveFirstCount(s, '(');
    RemoveFirstCount(s1, ')');
    RemoveFirstCount(s2, ' ');
    RemoveFirstCount(s3, '-');
  }

  /** Taking the four characters away one at a time is taking them away together. */
  lemma MinusPunctuation(m: multiset<char>)
    ensures (((m - multiset{'('}) - multiset{')'}) - multiset{' '}) - multiset{'-'} == m - multiset(Punctuation)
  {
    MinusTwice(m, multiset{'('}, multiset{')'});
    MinusTwice(m, multiset{'(', ')'}, multiset{' '});
    MinusTwice(m, multiset{'(', ')', ' '}, multiset{'-'});
    assert multiset(Punctuation) == multiset{'(', ')', ' ', '-'};
  }

  /** Taking away `a` and then `b` is taking away both at once. */
  lemma MinusTwice(m: multiset<char>, a: multiset<char>, b: multiset<char>)
    ensures (m - a) - b == m - (a + b)
  {
    assert forall x :: ((m - a) - b)[x] == (m - (a + b))[x];
  }

  /** Every string gives a number in international form; a non-string gives
      undefined. */
  lemma PhoneNumberInternational(number: Value)
    ensures PhoneNumberOf(number).Some? <==> number.Str?
    ensures PhoneNumberOf(number).Some? ==> International(PhoneNumberOf(number).value)
  {
  }

  /** The result is the stripped number, behind "+1" exactly when the stripped
      number is not already international. */
  lemma PhoneNumberKeepsDigits(s: string)
    ensures var r := PhoneNumberOf(Str(s)).value;
            (International(Stripped(s)) ==> r == Stripped(s))
            && (!International(Stripped(s)) ==> r == "+1" + Stripped(s))
            && multiset(Stripped(s)) == multiset(s) - multiset(Punctuation)
  {
    StrippedCount(s);
  }

  /** A number with no punctuation is only given its prefix, and an international
      one comes back unchanged. */
  lemma CleanNumberUnchanged(s: string)
    requires forall k | 0 <= k < |s| :: s[k] !in Punctuation
    ensures PhoneNumberOf(Str(s)) == Some(if International(s) then s else "+1" + s)
  {
    assert '(' !in s && ')' !in s && ' ' !in s && '-' !in s;
    ReplaceFirstChar(s, '(');
    ReplaceFirstChar(s, ')');
    ReplaceFirstChar(s, ' ');
    ReplaceFirstChar(s, '-');
  }

  // ---------------------------------------------------------------------------
  // extractMessage and getLanguageShortCode
  // ---------------------------------------------------------------------------

  /** `extractMessage(messageObject, language)`: a falsy language means
      "English"; a missing or empty entry gives "". */
  function ExtractMessage(messages: map<string, string>, language: Field): (r: string)
    ensures r != "" ==> exists l :: l in messages && r == messages[l]
  {
    var lang := if Truthy(language) then language.value else "English";
    if lang in messages && messages[lang] != "" then messages[lang] else ""
  }

  /** Without a language the English entry is used. */
  lemma ExtractDefaultsToEnglish(messages: map<string, string>, language: Field)
    requires !Truthy(language)
    ensures ExtractMessage(messages, language) == ExtractMessage(messages, Some("English"))
    ensures "English" !in messages ==> ExtractMessage(messages, language) == ""
  {
  }

  /** A language whose entry is present and non-empty gets that entry; any other
      language gets "". */
  lemma ExtractFindsEntry(messages: map<string, string>, language: string)
    requires language != ""
    ensures language in messages ==> ExtractMessage(messages, Some(language)) == messages[language]
    ensures language !in messages ==> ExtractMessage(messages, Some(language)) == ""
  {
  }

  /** One entry of `languagesAndShortCode`. */
  datatype Language = Language(source: string, code: string)

  /** `languagesAndShortCode`. */
  const LanguagesAndShortCode: seq<Language> := [Language("English", "en"), Language("Spanish", "es")]

  /** `Array.prototype.find` on the table: the first entry whose `source` is the language. */
  function FindLanguage(table: seq<Language>, language: Field): (r: Option<nat>)
    ensures r.Some? ==> r.value < |table| && Some(table[r.value].source) == language
    ensures r.Some? ==> forall j | 0 <= j < r.value :: Some(table[j].source) != language
    ensures r.None? ==> forall j | 0 <= j < |table| :: Some(table[j].source) != language
  {
    if table == [] then None
    else if Some(table[0].source) == language then Some(0)
    else
      match FindLanguage(table[1..], language)
      case None => None
      case Some(k) => Some(k + 1)
  }

  /** `getLanguageShortCode(language)`: the code of the first entry for the
      language, else "en". */
  function GetLanguageShortCode(language: Field): string
  {
    match FindLanguage(LanguagesAndShortCode, language)
    case None => "en"
    case Some(i) => LanguagesAndShortCode[i].code
  }

  /** The table's two languages get their codes; every other language, and an
      absent one, gets "en". */
  lemma ShortCodes(language: Field)
    ensures language == Some("English") ==> GetLanguageShortCode(language) == "en"
    ensures language == Some("Spanish") ==> GetLanguageShortCode(language) == "es"
    ensures language != Some("Spanish") ==> GetLanguageShortCode(language) == "en"
  {
  }

  // ---------------------------------------------------------------------------
  // replaceDetailsInMsg
  // ---------------------------------------------------------------------------

  /** One key of the sentence object and the value that replaces its placeholder. */
  datatype Detail = Detail(key: string, value: string)

  /** The inner loop for one placeholder: for each key, in order, that the
      placeholder includes, the first occurrence of the placeholder is
      replaced by the key's value. */
  function ReplaceKeys(msg: string, placeholder: string, details: seq<Detail>): string
  {
    if details == [] then msg
    else
      var m := ReplaceKeys(msg, placeholder, details[..|details| - 1]);
      var d := details[|details| - 1];
      if Includes(placeholder, d.key) then ReplaceFirst(m, placeholder, d.value) else m
  }

  /** `replaceDetailsInMsg(msg, sentenceObj)`, given the placeholders the
      `<%…>` regular expression matches in `msg`, in order. */
  function ReplaceDetails(msg: string, placeholders: seq<string>, details: seq<Detail>): string
  {
    if placeholders == [] then msg
    else ReplaceKeys(ReplaceDetails(msg, placeholders[..|placeholders| - 1], details),
                     placeholders[|placeholders| - 1], details)
  }

  /** The nested loops of `replaceDetailsInMsg`, rewriting `msg`. */
  method ReplaceDetailsInMsg(msg0: string, placeholders: seq<string>, details: seq<Detail>)
    returns (msg: string)
    ensures msg == ReplaceDetails(msg0, placeholders, details)
  {
    msg := msg0;
    var i := 0;
    while i < |placeholders|
      invariant 0 <= i <= |placeholders|
      invariant msg == ReplaceDetails(msg0, placeholders[..i], details)
    {
      assert placeholders[..i + 1][..i] == placeholders[..i];
      var start := msg;
      var j := 0;
      while j < |details|
        invariant 0 <= j <= |details|
        invariant msg == ReplaceKeys(start, placeholders[i], details[..j])
      {
        assert details[..j + 1][..j] == details[..j];
        if Includes(placeholders[i], details[j].key) {
          msg := ReplaceFirst(msg, placeholders[i], details[j].value);
        }
        j := j + 1;
      }
      assert details[..j] == details;
      i := i + 1;
    }
    assert placeholders[..i] == placeholders;
  }

  /** A message without placeholders is returned unchanged. */
  lemma NoPlaceholderUnchanged(msg: string, details: seq<Detail>)
    ensures ReplaceDetails(msg, [], details) == msg
  {
  }

  /** A placeholder that includes no key is left in place. */
  lemma {:induction false} UnmatchedPlaceholderKept(msg: string, placeholder: string, details: seq<Detail>)
    requires forall j | 0 <= j < |details| :: !Includes(placeholder, details[j].key)
    ensures ReplaceKeys(msg, placeholder, details) == msg
    decreases |details|
  {
    if details != [] {
      UnmatchedPlaceholderKept(msg, placeholder, details[..|details| - 1]);
    }
  }

  /** A placeholder that includes exactly one key has its first occurrence in
      the message replaced by that key's value, and nothing else changes. */
  lemma {:induction false} MatchedPlaceholderReplaced(msg: string, placeholder: string,
                                                      details: seq<Detail>, k: nat)
    requires k < |details| && Includes(placeholder, details[k].key)
    requires forall j | 0 <= j < |details| && j != k :: !Includes(placeholder, details[j].key)
    ensures ReplaceKeys(msg, placeholder, details) == ReplaceFirst(msg, placeholder, details[k].value)
    decreases |details|
  {
    var init := details[..|details| - 1];
    if k == |details| - 1 {
      UnmatchedPlaceholderKept(msg, placeholder, init);
    } else {
      MatchedPlaceholderReplaced(msg, placeholder, init, k);
    }
  }

  /** A value is not inserted literally: `replace` expands its `$` patterns, so
      a key whose value is "$&" leaves the placeholder where it was. */
  lemma DollarValueKeepsPlaceholder(msg: string, placeholder: string, key: string)
    requires Includes(placeholder, key)
    ensures ReplaceKeys(msg, placeholder, [Detail(key, "$&")]) == msg
  {
    var ds := [Detail(key, "$&")];
    assert ds[..0] == [];
    DollarPatterns(msg, placeholder);
  }

  /** Substitution runs placeholder after placeholder: the placeholders of a
      message `a + b` are handled by handling `a`'s, then `b`'s. */
  lemma {:induction false} ReplaceDetailsAppend(msg: string, a: seq<string>, b: seq<string>, details: seq<Detail>)
    ensures ReplaceDetails(msg, a + b, details) == ReplaceDetails(ReplaceDetails(msg, a, details), b, details)
    decreases |b|
  {
    if b == [] {
      assert a + b == a;
    } else {
      var b' := b[..|b| - 1];
      assert (a + b)[..|a + b| - 1] == a + b';
      assert (a + b)[|a + b| - 1] == b[|b| - 1];
      ReplaceDetailsAppend(msg, a, b', details);
    }
  }

  // ---------------------------------------------------------------------------
  // SFTP validators
  // ---------------------------------------------------------------------------

  /** One spreadsheet row: column title to cell text. */
  type SheetRow = map<string, string>

  /** `!!data[column]`: the cell is present and not empty. */
  predicate Filled(row: SheetRow, column: string)
  {
    column in row && row[column] != ""
  }

  /** `validateCustomerSFTPData`: the chain of early `return false`s. */
  function ValidateCustomerSFTPData(data: SheetRow): bool
  {
    if !Filled(data, "Unit #") then false
    else if !Filled(data, "First Name") then false
    else if !Filled(data, "Last Name") then false
    else if !Filled(data, "E-mail") then false
    else if !Filled(data, "Cell Phone") && !Filled(data, "Home Phone") then false
    else if !Filled(data, "Lease End Date") then false
    else true
  }

  /** `validateResidenceSFTPData`. */
  function ValidateResidenceSFTPData(data: SheetRow): bool
  {
    if !Filled(data, "AgencyName") then false
    else if !Filled(data, "apartmentOwnerEmail") then false
    else if !Filled(data, "managerEmail") then false
    else if !Filled(data, "supervisorEmail") then false
    else true
  }

  /** A customer row is valid exactly when unit, names, e-mail and lease end are
      all filled and at least one of the two phones is. */
  lemma CustomerValidExactly(data: SheetRow)
    ensures ValidateCustomerSFTPData(data) <==>
              (forall c | c in ["Unit #", "First Name", "Last Name", "E-mail", "Lease End Date"] :: Filled(data, c))
              && (Filled(data, "Cell Phone") || Filled(data, "Home Phone"))
  {
  }

  /** A residence row is valid exactly when its four columns are filled. */
  lemma ResidenceValidExactly(data: SheetRow)
    ensures ValidateResidenceSFTPData(data) <==>
              forall c | c in ["AgencyName", "apartmentOwnerEmail", "managerEmail", "supervisorEmail"] :: Filled(data, c)
  {
  }

  /** Only the named columns matter: changing any other column keeps the verdicts. */
  lemma ValidatorsIgnoreOtherColumns(data: SheetRow, column: string, text: string)
    requires column !in ["Unit #", "First Name", "Last Name", "E-mail", "Cell Phone", "Home Phone",
                         "Lease End Date", "AgencyName", "apartmentOwnerEmail", "managerEmail",
                         "supervisorEmail"]
    ensures ValidateCustomerSFTPData(data[column := text]) == ValidateCustomerSFTPData(data)
    ensures ValidateResidenceSFTPData(data[column := text]) == ValidateResidenceSFTPData(data)
  {
  }

  // ---------------------------------------------------------------------------
  // Grouping service requests by the manager's e-mail
  // ---------------------------------------------------------------------------

  /** A service request: its manager's e-mail and its ticket id. */
  datatype ServiceRequest = ServiceRequest(email: string, ticketId: string)

  /** The `reduce` over the requests: each ticket id is appended to the list
      of its manager's e-mail, which is created on first use. */
  function GroupTickets(reqs: seq<ServiceRequest>): map<string, seq<string>>
  {
    if reqs == [] then map[]
    else
      var acc := GroupTickets(reqs[..|reqs| - 1]);
      var r := reqs[|reqs| - 1];
      acc[r.email := if r.email in acc then acc[r.email] + [r.ticketId] else [r.ticketId]]
  }

  /** The ticket ids of the requests sent to `email`, in request order. */
  function TicketsFor(reqs: seq<ServiceRequest>, email: string): seq<string>
  {
    if reqs == [] then []
    else TicketsFor(reqs[..|reqs| - 1], email)
         + (if reqs[|reqs| - 1].email == email then [reqs[|reqs| - 1].ticketId] else [])
  }

  /** The groups are keyed by exactly the e-mails that occur, and each group
      holds that e-mail's ticket ids in request order: every ticket lands in
      the group of its own manager and in no other. */
  lemma {:induction false} GroupTicketsByEmail(reqs: seq<ServiceRequest>)
    ensures forall e :: e in GroupTickets(reqs) <==> exists i | 0 <= i < |reqs| :: reqs[i].email == e
    ensures forall e | e in GroupTickets(reqs) :: GroupTickets(reqs)[e] == TicketsFor(reqs, e)
    decreases |reqs|
  {
    if reqs != [] {
      var init := reqs[..|reqs| - 1];
      GroupTicketsByEmail(init);
      forall e ensures e in GroupTickets(init) ==> TicketsFor(init, e) != [] {
        if e in GroupTickets(init) {
          var i :| 0 <= i < |init| && init[i].email == e;
          TicketsForNonEmpty(init, e, i);
        }
      }
      forall e ensures (e in GroupTickets(reqs)) <==> exists i | 0 <= i < |reqs| :: reqs[i].email == e {
        if exists i | 0 <= i < |reqs| :: reqs[i].email == e {
          var i :| 0 <= i < |reqs| && reqs[i].email == e;
          if i < |init| {
            assert init[i].email == e;
          }
        }
        if e in GroupTickets(init) {
          var i :| 0 <= i < |init| && init[i].email == e;
          assert reqs[i].email == e;
        }
      }
      forall e | e in GroupTickets(reqs) ensures GroupTickets(reqs)[e] == TicketsFor(reqs, e) {
        if e !in GroupTickets(init) {
          TicketsForEmpty(init, e);
        }
      }
    }
  }

  /** An e-mail that no request uses has no tickets. */
  lemma {:induction false} TicketsForEmpty(reqs: seq<ServiceRequest>, e: string)
    requires e !in GroupTickets(reqs)
    requires forall x :: x in GroupTickets(reqs) <==> exists i | 0 <= i < |reqs| :: reqs[i].email == x
    ensures TicketsFor(reqs, e) == []
    decreases |reqs|
  {
    if reqs != [] {
      var init := reqs[..|reqs| - 1];
      assert reqs[|reqs| - 1].email != e;
      GroupTicketsByEmail(init);
      TicketsForEmpty(init, e);
    }
  }

  /** An e-mail some request uses has at least one ticket. */
  lemma {:induction false} TicketsForNonEmpty(reqs: seq<ServiceRequest>, e: string, i: nat)
    requires i < |reqs| && reqs[i].email == e
    ensures TicketsFor(reqs, e) != []
    decreases |reqs|
  {
    if i < |reqs| - 1 {
      var init := reqs[..|reqs| - 1];
      assert init[i].email == e;
      TicketsForNonEmpty(init, e, i);
    }
  }

  // ---------------------------------------------------------------------------
  // The controlLPAFlow switch
  // ---------------------------------------------------------------------------

  /** The part of the leasing service that holds the `controlLPAFlow` switch. */
  class LeasingService {
    /** `_controlLPAFlow`, only to be changed through the setter. */
    var controlFlow: bool

    /** The constructor starts with the flow enabled. */
    constructor ()
      ensures controlFlow
    {
      controlFlow := true;
    }

    /** The `controlLPAFlow` getter. */
    function ControlLPAFlow(): bool
      reads this
    {
      controlFlow
    }

    /** The `controlLPAFlow` setter: a boolean is stored; any other value is
        ignored and the switch keeps its state. */
    method SetControlLPAFlow(value: Value)
      modifies this
      ensures value.Bool? ==> controlFlow == value.b
      ensures !value.Bool? ==> controlFlow == old(controlFlow)
    {
      if value.Bool? {
        controlFlow := value.b;
      }
    }
  }
}
