/**
 * The record-shaping half of the scraper
 * (scripts/scrape_groww_jm_aggressive_hybrid.py): given the scheme's
 * `mf` object from the page's Next.js data, build the scheme record that
 * the offline build later chunks.
 *
 * Fetching the page and locating the data blob are not modelled; the
 * fetch timestamp is a parameter, and `float()` with its `.2f` rendering
 * (used for the expense ratio) is an oracle.
 */
module Scraper {
  import opened Wrappers
  import opened Text
  import opened PyJson
  import Chunking

  /** `ScrapeError` for a missing riskometer label; any other exception is `Malformed`. */
  datatype ScrapeError = RiskLabelMissing | Malformed

  const Rupee: char := '\U{20B9}'

  // ---------------------------------------------------------------------
  // Money

  /** `format(n, ",")`: the decimal digits grouped in threes, after a minus sign when negative. */
  function ThousandsFormat(n: int): string
  {
    if n < 0 then "-" + Grouped(-n) else Grouped(n)
  }

  /** The rupee display of a whole amount. */
  function MoneyDisplay(n: int): string
  {
    [Rupee] + ThousandsFormat(n)
  }

  /** `normalize_money` on `None` or an integer. */
  function NormalizeMoney(amount: Json): Json
    requires amount.Null? || amount.Int?
  {
    match amount
    case Null => Object([("value", Null), ("display", Null)])
    case Int(n) => Object([("value", Int(n)), ("display", Str(MoneyDisplay(n)))])
  }

  /** Reading an amount back from its display: drop the rupee sign, the minus sign and the commas. */
  function ParseMoney(display: string): int
    requires |display| >= 1
  {
    var body := display[1..];
    if body != [] && body[0] == '-' then -(DecimalValue(Ungroup(body[1..]) ) as int)
    else DecimalValue(Ungroup(body))
  }

  lemma {:induction false} GroupedStartsWithDigit(n: nat)
    ensures |Grouped(n)| >= 1 && IsDigit(Grouped(n)[0])
    decreases n
  {
    if n >= 1000 {
      GroupedStartsWithDigit(n / 1000);
    }
  }

  /** The display opens with the rupee sign and reads back as the amount. */
  lemma MoneyRoundTrip(n: int)
    ensures MoneyDisplay(n)[0] == Rupee
    ensures ParseMoney(MoneyDisplay(n)) == n
  {
    var d := MoneyDisplay(n);
    var m := if n < 0 then -n else n;
    GroupedRoundTrip(m);
    GroupedStartsWithDigit(m);
    if n < 0 {
      assert d[1..][1..] == Grouped(m);
    } else {
      assert d[1..] == Grouped(m);
    }
  }

  /** `normalize_money(None)` gives `None` for both keys; an integer keeps its value and gains a display. */
  lemma NormalizeMoneyShape(amount: Json)
    requires amount.Null? || amount.Int?
    ensures amount.Null? ==> Get(NormalizeMoney(amount).fields, "value") == Null && Get(NormalizeMoney(amount).fields, "display") == Null
    ensures amount.Int? ==>
      && Get(NormalizeMoney(amount).fields, "value") == amount
      && Get(NormalizeMoney(amount).fields, "display") == Str(MoneyDisplay(amount.i))
      && ParseMoney(MoneyDisplay(amount.i)) == amount.i
      && WellGrouped(Grouped(if amount.i < 0 then -amount.i else amount.i))
  {
    var fs := NormalizeMoney(amount).fields;
    assert Lookup(fs, "value") == Some(fs[0].1);
    assert Lookup(fs, "display") == Some(fs[1].1);
    if amount.Int? {
      MoneyRoundTrip(amount.i);
      GroupedWellGrouped(if amount.i < 0 then -amount.i else amount.i);
    }
  }

  // ---------------------------------------------------------------------
  // Percentages

  /**
   * `format_percentage`: `None` and `""` give `None` for both keys;
   * anything else goes through `float()`, whose value and `.2f%` display
   * the oracle returns (`None` when `float()` raises).
   */
  function FormatPercentage(raw: Json, percent: Json -> Option<(Json, string)>): (r: Result<Json, ScrapeError>)
    ensures (raw == Null || raw == Str("")) ==> r == Ok(Object([("value", Null), ("display", Null)]))
    ensures !(raw == Null || raw == Str("")) ==> (r.Err? <==> percent(raw).None?)
  {
    if raw == Null || raw == Str("") then Ok(Object([("value", Null), ("display", Null)]))
    else
      match percent(raw)
      case None => Err(Malformed)
      case Some((v, text)) => Ok(Object([("value", v), ("display", Str(text))]))
  }

  // ---------------------------------------------------------------------
  // Lock-in

  const NoLockInNote: string := "No lock-in mentioned; scheme is not an ELSS product."

  /** A part the lock-in sum can add: falsy (counts as 0), an integer, or `True` (counts as 1). */
  predicate LockPart(j: Json)
  {
    !Truthy(j) || j.Int? || j.Bool?
  }

  /** `(part or 0)` as an integer. */
  function PartValue(j: Json): int
    requires LockPart(j)
  {
    if !Truthy(j) then 0 else if j.Int? then j.i else 1
  }

  /** `mf_data.get("lock_in") or {}`. */
  function LockObject(mf: Fields): Json
  {
    Or(Get(mf, "lock_in"), Object([]))
  }

  /** The inputs the model covers: days, months and years are whole numbers or falsy. */
  predicate LockInDomain(mf: Fields)
  {
    LockObject(mf).Object? ==>
      && LockPart(Get(LockObject(mf).fields, "days"))
      && LockPart(Get(LockObject(mf).fields, "months"))
      && LockPart(Get(LockObject(mf).fields, "years"))
  }

  /** `extract_lock_in`. A truthy `lock_in` that is not a dict has no `.get`. */
  function ExtractLockIn(mf: Fields): (r: Result<Json, ScrapeError>)
    requires LockInDomain(mf)
    ensures r.Err? <==> !LockObject(mf).Object?
  {
    var lock := LockObject(mf);
    if !lock.Object? then Err(Malformed)
    else
      var days := Get(lock.fields, "days");
      var months := Get(lock.fields, "months");
      var years := Get(lock.fields, "years");
      if !(Truthy(days) || Truthy(months) || Truthy(years)) then
        Ok(Object([("applicable", Bool(false)), ("notes", Str(NoLockInNote))]))
      else
        Ok(Object([("applicable", Bool(true)),
                   ("lock_in_days", Int(PartValue(days) + PartValue(months) * 30 + PartValue(years) * 365))]))
  }

  /**
   * With no truthy part the scheme is reported as having no lock-in;
   * otherwise the lock-in is the sum of the parts in days, a month
   * counting 30 and a year 365, and a missing part counting 0.
   */
  lemma LockInCases(mf: Fields)
    requires LockInDomain(mf) && LockObject(mf).Object?
    ensures var lock := LockObject(mf).fields;
      var r := ExtractLockIn(mf).value.fields;
      var days := Get(lock, "days");
      var months := Get(lock, "months");
      var years := Get(lock, "years");
      && (Get(r, "applicable") == Bool(false) <==> !Truthy(days) && !Truthy(months) && !Truthy(years))
      && (Get(r, "applicable") == Bool(false) ==> Get(r, "notes") == Str(NoLockInNote) && Lookup(r, "lock_in_days").None?)
      && (Get(r, "applicable") != Bool(false) ==>
            Get(r, "applicable") == Bool(true)
            && Get(r, "lock_in_days") == Int(PartValue(days) + 30 * PartValue(months) + 365 * PartValue(years)))
  {
    var r := ExtractLockIn(mf).value.fields;
    assert r[0].0 == "applicable" && |r| == 2 && r[1..][0] == r[1];
    assert Lookup(r, r[1].0) == Some(r[1].1);
    assert Lookup(r[1..][1..], "lock_in_days") == None;
  }

  /** A lock-in given only in whole years is 365 days per year. */
  lemma LockInYears(mf: Fields, y: int)
    requires Lookup(mf, "lock_in") == Some(Object([("years", Int(y))])) && y != 0
    ensures LockInDomain(mf) && ExtractLockIn(mf) == Ok(Object([("applicable", Bool(true)), ("lock_in_days", Int(365 * y))]))
  {
    var lock := [("years", Int(y))];
    assert LockObject(mf) == Object(lock);
    assert Lookup(lock, "days") == None && Lookup(lock, "months") == None && Lookup(lock, "years") == Some(Int(y));
  }

  // ---------------------------------------------------------------------
  // Riskometer label

  /** The literal text before the group in `Risk is ([A-Za-z ]+)`. */
  const RiskCue: string := "Risk is "

  predicate InRiskClass(c: char)
  {
    IsAsciiLetter(c) || c == ' '
  }

  /** The pattern matches at `i`: the cue, then at least one letter or space. */
  predicate RiskMatchAt(s: string, i: int)
  {
    0 <= i && i + |RiskCue| < |s| && s[i..i + |RiskCue|] == RiskCue && InRiskClass(s[i + |RiskCue|])
  }

  /** Where `re.search` finds the pattern, scanning from `i`: the leftmost match. */
  function FirstRiskMatch(s: string, i: nat): (r: Option<nat>)
    ensures r.Some? ==> i <= r.value && RiskMatchAt(s, r.value)
    ensures r.Some? ==> forall j :: i <= j < r.value ==> !RiskMatchAt(s, j)
    ensures r.None? ==> forall j :: i <= j ==> !RiskMatchAt(s, j)
    decreases |s| - i
  {
    if i >= |s| then None
    else if RiskMatchAt(s, i) then Some(i)
    else FirstRiskMatch(s, i + 1)
  }

  /** The greedy group: the longest run of letters and spaces starting at `j`. */
  function RiskRun(s: string, j: nat): (r: string)
    requires j <= |s|
    ensures j + |r| <= |s| && s[j..j + |r|] == r
    ensures forall k :: 0 <= k < |r| ==> InRiskClass(r[k])
    ensures j + |r| == |s| || !InRiskClass(s[j + |r|])
    decreases |s| - j
  {
    if j < |s| && InRiskClass(s[j]) then [s[j]] + RiskRun(s, j + 1) else []
  }

  /** `match.group(1)` of `re.search(r"Risk is ([A-Za-z ]+)", s)`, when there is a match. */
  function RiskGroup(s: string): (g: Option<string>)
    ensures g.Some? ==> |g.value| >= 1
  {
    match FirstRiskMatch(s, 0)
    case Some(i) => Some(RiskRun(s, i + |RiskCue|))
    case None => None
  }

  /** `mf_data.get("meta_desc") or ""`. */
  function MetaDesc(mf: Fields): Json
  {
    Or(Get(mf, "meta_desc"), Str(""))
  }

  /**
   * `extract_risk_label`: the stripped group of the first "Risk is ..."
   * in the page description; else the stripped `nfo_risk` when that is a
   * non-blank string; else `ScrapeError`. A description that is truthy
   * but not a string makes `re.search` raise.
   */
  function ExtractRiskLabel(mf: Fields): (r: Result<string, ScrapeError>)
    ensures r.Err? ==> (r.error == RiskLabelMissing <==> MetaDesc(mf).Str?)
  {
    var metaDesc := MetaDesc(mf);
    if !metaDesc.Str? then Err(Malformed)
    else
      match RiskGroup(metaDesc.s)
      case Some(g) => Ok(Strip(g))
      case None =>
        var nfo := Get(mf, "nfo_risk");
        if nfo.Str? && Strip(nfo.s) != "" then Ok(Strip(nfo.s)) else Err(RiskLabelMissing)
  }

  /** The greedy group follows the first "Risk is " of the description. */
  lemma RiskGroupFollowsCue(s: string)
    requires RiskGroup(s).Some?
    ensures Contains(s, RiskCue + RiskGroup(s).value)
  {
    var i := FirstRiskMatch(s, 0).value;
    var g := RiskGroup(s).value;
    assert s[i..i + |RiskCue|] == RiskCue;
    assert s[i + |RiskCue|..i + |RiskCue| + |g|] == g;
    assert s[i..i + |RiskCue| + |g|] == RiskCue + g;
    assert OccursAt(s, RiskCue + g, i);
  }

  /** Trimming a run of letters and spaces leaves letters and inner spaces only. */
  lemma StripRun(g: string)
    requires forall k :: 0 <= k < |g| ==> InRiskClass(g[k])
    ensures forall k :: 0 <= k < |Strip(g)| ==> InRiskClass(Strip(g)[k])
    ensures Strip(g) == [] || (Strip(g)[0] != ' ' && Strip(g)[|Strip(g)| - 1] != ' ')
  {
    var stripped := Strip(g);
    var at :| 0 <= at <= |g| - |stripped| && OccursAt(g, stripped, at);
    forall k | 0 <= k < |stripped| ensures InRiskClass(stripped[k]) {
      assert stripped[k] == g[at + k];
    }
  }

  /**
   * When the description matches, the label is the matched run with its
   * spaces trimmed: letters and inner spaces only, taken from the text
   * right after the first "Risk is ".
   */
  lemma RiskLabelFromDescription(mf: Fields)
    requires MetaDesc(mf).Str? && RiskGroup(MetaDesc(mf).s).Some?
    ensures ExtractRiskLabel(mf) == Ok(Strip(RiskGroup(MetaDesc(mf).s).value))
    ensures forall k :: 0 <= k < |ExtractRiskLabel(mf).value| ==> InRiskClass(ExtractRiskLabel(mf).value[k])
    ensures ExtractRiskLabel(mf).value == [] || (ExtractRiskLabel(mf).value[0] != ' ' && ExtractRiskLabel(mf).value[|ExtractRiskLabel(mf).value| - 1] != ' ')
    ensures Contains(MetaDesc(mf).s, RiskCue + RiskGroup(MetaDesc(mf).s).value)
  {
    StripRun(RiskGroup(MetaDesc(mf).s).value);
    RiskGroupFollowsCue(MetaDesc(mf).s);
  }

  /** Without a match the label is the stripped `nfo_risk`, and only a non-blank string will do. */
  lemma RiskLabelFromNfo(mf: Fields)
    requires MetaDesc(mf).Str? && RiskGroup(MetaDesc(mf).s).None?
    ensures ExtractRiskLabel(mf).Ok? <==> Get(mf, "nfo_risk").Str? && Strip(Get(mf, "nfo_risk").s) != ""
    ensures ExtractRiskLabel(mf).Ok? ==> ExtractRiskLabel(mf).value == Strip(Get(mf, "nfo_risk").s)
    ensures ExtractRiskLabel(mf).Err? ==> ExtractRiskLabel(mf).error == RiskLabelMissing
  {
  }

  // ---------------------------------------------------------------------
  // The scheme record

  /** `(mf_data.get(key) or {})`, which must be a dict for the `.get` that follows. */
  function SubObject(mf: Fields, key: string): Result<Fields, ScrapeError>
  {
    var o := Or(Get(mf, key), Object([]));
    if o.Object? then Ok(o.fields) else Err(Malformed)
  }

  /** `{**d, "source_url": url}` for a dict `d` that has no `source_url` key. */
  function WithSource(d: Json, url: string): Json
    requires d.Object?
  {
    Object(d.fields + [("source_url", Str(url))])
  }

  /** The inputs the model covers: money amounts are integers or `None`, lock-in parts are whole or falsy. */
  predicate PayloadDomain(mf: Fields)
  {
    && (Get(mf, "min_investment_amount").Null? || Get(mf, "min_investment_amount").Int?)
    && (Get(mf, "min_sip_investment").Null? || Get(mf, "min_sip_investment").Int?)
    && LockInDomain(mf)
  }

  function SchemeMetadata(mf: Fields, amc: Fields): Fields
  {
    [ ("plan_type", Get(mf, "plan_type")),
      ("scheme_type", Get(mf, "scheme_type")),
      ("category", Get(mf, "category")),
      ("sub_category", Get(mf, "sub_category")),
      ("fund_house", Get(amc, "name")) ]
  }

  function SchemeAttributes(mf: Fields, url: string, expense: Json, risk: string, categoryInfo: Fields, lockIn: Json): Fields
    requires PayloadDomain(mf) && expense.Object? && lockIn.Object?
  {
    [ ("minimum_lumpsum_investment", WithSource(NormalizeMoney(Get(mf, "min_investment_amount")), url)),
      ("minimum_sip_investment", WithSource(NormalizeMoney(Get(mf, "min_sip_investment")), url)),
      ("expense_ratio", WithSource(expense, url)),
      ("exit_load", Object([("value", Get(mf, "exit_load")), ("source_url", Str(url))])),
      ("riskometer", Object([("label", Str(risk)), ("source_url", Str(url))])),
      ("benchmark", Object([("name", Get(mf, "benchmark_name")), ("source_url", Str(url))])),
      ("taxation", Object([("summary", Get(categoryInfo, "tax_impact")), ("source_url", Str(url))])),
      ("lock_in", WithSource(lockIn, url)) ]
  }

  /** The documents list of a scheme record: the SID entry when `sid_url` is truthy. */
  function SidDocuments(mf: Fields, url: string): seq<Json>
  {
    if Truthy(Get(mf, "sid_url")) then [SidDocument(Get(mf, "sid_url"), url)] else []
  }

  /** The SID entry for a truthy `sid_url`. */
  function SidDocument(sid: Json, url: string): Json
  {
    Object([("type", Str("SID")), ("url", sid), ("source_url", Str(url))])
  }

  /** The parts of the record that can raise: its name, metadata dict and attributes dict. */
  datatype Draft = Draft(schemeName: Json, metadata: Fields, attributes: Fields)

  /** The dict literal of `build_scheme_payload`, evaluated in source order up to its first exception. */
  function SchemeDraft(mf: Fields, url: string, percent: Json -> Option<(Json, string)>): Result<Draft, ScrapeError>
    requires PayloadDomain(mf)
  {
    var schemeName :- (match Lookup(mf, "scheme_name") case Some(v) => Ok(v) case None => Err(Malformed));
    var amc :- SubObject(mf, "amc_info");
    var expense :- FormatPercentage(Get(mf, "expense_ratio"), percent);
    var risk :- ExtractRiskLabel(mf);
    var categoryInfo :- SubObject(mf, "category_info");
    var lockIn :- ExtractLockIn(mf);
    Ok(Draft(schemeName, SchemeMetadata(mf, amc), SchemeAttributes(mf, url, expense, risk, categoryInfo, lockIn)))
  }

  /** The record's top-level dict, in the key order of the literal. */
  function Record(mf: Fields, url: string, fetchedAt: string, draft: Draft, metadata: Fields, documents: seq<Json>): Json
  {
    Object([
      ("scheme_key", Or(Get(mf, "search_id"), Get(mf, "scheme_code"))),
      ("scheme_name", draft.schemeName),
      ("source_url", Str(url)),
      ("fetched_at", Str(fetchedAt)),
      ("metadata", Object(metadata)),
      ("attributes", Object(draft.attributes)),
      ("documents", Array(documents))])
  }

  /**
   * `build_scheme_payload` once `mf` is in hand: the dict literal, then
   * the SID document when `sid_url` is truthy and the stripped objective
   * when `description` is (a truthy non-string has no `.strip`).
   */
  function SchemePayload(mf: Fields, url: string, fetchedAt: string, percent: Json -> Option<(Json, string)>): Result<Json, ScrapeError>
    requires PayloadDomain(mf)
  {
    match SchemeDraft(mf, url, percent)
    case Err(e) => Err(e)
    case Ok(draft) => Completed(mf, url, fetchedAt, draft)
  }

  /** The additions after the literal: the objective from `description` and the SID document. */
  function Completed(mf: Fields, url: string, fetchedAt: string, draft: Draft): Result<Json, ScrapeError>
  {
    var sid := Get(mf, "sid_url");
    var description := Get(mf, "description");
    if Truthy(description) && !description.Str? then Err(Malformed)
    else
      Ok(Record(mf, url, fetchedAt, draft,
        draft.metadata + (if Truthy(description) then [("objective", Str(Strip(description.s)))] else []),
        if Truthy(sid) then [SidDocument(sid, url)] else []))
  }

  /** `build_scheme_payload`: the dict literal, then the in-place additions to `documents` and `metadata`. */
  method BuildSchemePayload(mf: Fields, url: string, fetchedAt: string, percent: Json -> Option<(Json, string)>)
    returns (r: Result<Json, ScrapeError>)
    requires PayloadDomain(mf)
    ensures r == SchemePayload(mf, url, fetchedAt, percent)
  {
    var drafted := SchemeDraft(mf, url, percent);
    if drafted.Err? {
      return Err(drafted.error);
    }
    var draft := drafted.value;
    var metadata := draft.metadata;
    var documents: seq<Json> := [];
    var sid := Get(mf, "sid_url");
    if Truthy(sid) {
      documents := documents + [SidDocument(sid, url)];
      assert documents == [SidDocument(sid, url)];
    }
    var description := Get(mf, "description");
    if Truthy(description) {
      if !description.Str? {
        return Err(Malformed);
      }
      metadata := metadata + [("objective", Str(Strip(description.s)))];
    } else {
      assert metadata + [] == metadata;
    }
    return Ok(Record(mf, url, fetchedAt, draft, metadata, documents));
  }

  // ---------------------------------------------------------------------
  // What a scheme record holds

  /** The record's keys, each read back from the literal. */
  lemma RecordFields(mf: Fields, url: string, fetchedAt: string, draft: Draft, metadata: Fields, documents: seq<Json>)
    ensures var p := Record(mf, url, fetchedAt, draft, metadata, documents).fields;
      && Lookup(p, "scheme_key") == Some(Or(Get(mf, "search_id"), Get(mf, "scheme_code")))
      && Lookup(p, "scheme_name") == Some(draft.schemeName)
      && Lookup(p, "source_url") == Some(Str(url))
      && Lookup(p, "fetched_at") == Some(Str(fetchedAt))
      && Lookup(p, "metadata") == Some(Object(metadata))
      && Lookup(p, "attributes") == Some(Object(draft.attributes))
      && Lookup(p, "documents") == Some(Array(documents))
  {
    var p := Record(mf, url, fetchedAt, draft, metadata, documents).fields;
    LookupAt(p, 0, "scheme_key");
    LookupAt(p, 1, "scheme_name");
    LookupAt(p, 2, "source_url");
    LookupAt(p, 3, "fetched_at");
    LookupAt(p, 4, "metadata");
    LookupAt(p, 5, "attributes");
    LookupAt(p, 6, "documents");
  }

  /** A dict from `format_percentage` has no `source_url` key of its own. */
  lemma PercentageUnsourced(raw: Json, percent: Json -> Option<(Json, string)>)
    requires FormatPercentage(raw, percent).Ok?
    ensures FormatPercentage(raw, percent).value.Object?
    ensures Lookup(FormatPercentage(raw, percent).value.fields, "source_url") == None
  {
    LookupAbsent(FormatPercentage(raw, percent).value.fields, "source_url");
  }

  /** Nor has a dict from `extract_lock_in`. */
  lemma LockInUnsourced(mf: Fields)
    requires LockInDomain(mf) && ExtractLockIn(mf).Ok?
    ensures ExtractLockIn(mf).value.Object?
    ensures Lookup(ExtractLockIn(mf).value.fields, "source_url") == None
    ensures Lookup(ExtractLockIn(mf).value.fields, "display") == None
    ensures Lookup(ExtractLockIn(mf).value.fields, "value") == None
  {
    LookupAbsent(ExtractLockIn(mf).value.fields, "source_url");
    LookupAbsent(ExtractLockIn(mf).value.fields, "display");
    LookupAbsent(ExtractLockIn(mf).value.fields, "value");
  }

  /** `{**d, "source_url": url}` cites `url` when `d` has no `source_url` of its own. */
  lemma WithSourceCites(d: Json, url: string)
    requires d.Object? && Lookup(d.fields, "source_url") == None
    ensures WithSource(d, url).Object? && Lookup(WithSource(d, url).fields, "source_url") == Some(Str(url))
  {
    LookupAppend(d.fields, [("source_url", Str(url))], "source_url");
  }

  /** Every attribute is a dict citing the scheme page. */
  predicate CitesPage(attributes: Fields, url: string)
  {
    forall k :: 0 <= k < |attributes| ==>
      attributes[k].1.Object? && Lookup(attributes[k].1.fields, "source_url") == Some(Str(url))
  }

  /** The eight attributes each cite the scheme page. */
  lemma AttributesCitePage(mf: Fields, url: string, expense: Json, risk: string, categoryInfo: Fields, lockIn: Json)
    requires PayloadDomain(mf) && expense.Object? && lockIn.Object?
    requires Lookup(expense.fields, "source_url") == None && Lookup(lockIn.fields, "source_url") == None
    ensures |SchemeAttributes(mf, url, expense, risk, categoryInfo, lockIn)| == 8
    ensures CitesPage(SchemeAttributes(mf, url, expense, risk, categoryInfo, lockIn), url)
  {
    var a := SchemeAttributes(mf, url, expense, risk, categoryInfo, lockIn);
    var lumpsum := NormalizeMoney(Get(mf, "min_investment_amount"));
    var sip := NormalizeMoney(Get(mf, "min_sip_investment"));
    LookupAbsent(lumpsum.fields, "source_url");
    LookupAbsent(sip.fields, "source_url");
    WithSourceCites(lumpsum, url);
    WithSourceCites(sip, url);
    WithSourceCites(expense, url);
    WithSourceCites(lockIn, url);
    forall k | 3 <= k < 7
      ensures a[k].1.Object? && Lookup(a[k].1.fields, "source_url") == Some(Str(url))
    {
      LookupAt(a[k].1.fields, 1, "source_url");
    }
  }

  /** The attribute keys of a scheme record, in the order of the literal. */
  const AttributeKeys: seq<string> := [
    "minimum_lumpsum_investment", "minimum_sip_investment", "expense_ratio", "exit_load",
    "riskometer", "benchmark", "taxation", "lock_in"]

  /**
   * Which attributes the offline build will turn into sentences: the
   * money amounts when they are integers, the exit load when it is not
   * `None`, and never the riskometer, benchmark, taxation or lock-in
   * dicts, which carry neither `display` nor `value`. (The expense ratio
   * depends on the `float()` oracle.)
   */
  predicate EmitsAsScraped(mf: Fields, attributes: Fields)
  {
    && |attributes| == 8
    && (forall k :: 0 <= k < 8 ==> attributes[k].0 == AttributeKeys[k])
    && (Chunking.Emitted(attributes[0].1) <==> Get(mf, "min_investment_amount").Int?)
    && (Chunking.Emitted(attributes[1].1) <==> Get(mf, "min_sip_investment").Int?)
    && (Chunking.Emitted(attributes[3].1) <==> Get(mf, "exit_load") != Null)
    && (forall k :: 4 <= k < 8 ==> !Chunking.Emitted(attributes[k].1))
  }

  /** A money attribute is emitted exactly when the amount is an integer. */
  lemma MoneyEmitted(amount: Json, url: string)
    requires amount.Null? || amount.Int?
    ensures Chunking.Emitted(WithSource(NormalizeMoney(amount), url)) <==> amount.Int?
  {
    var fs := WithSource(NormalizeMoney(amount), url).fields;
    LookupAt(fs, 0, "value");
    LookupAt(fs, 1, "display");
  }

  /** A dict with neither `display` nor `value` is never emitted. */
  lemma NeitherDisplayNorValue(fs: Fields)
    requires Lookup(fs, "display") == None && Lookup(fs, "value") == None
    ensures !Chunking.Emitted(Object(fs))
  {
  }

  /** The exit-load dict is emitted exactly when the exit load is not `None`. */
  lemma ExitLoadEmitted(exitLoad: Json, url: string)
    ensures Chunking.Emitted(Object([("value", exitLoad), ("source_url", Str(url))])) <==> exitLoad != Null
  {
    var fs := [("value", exitLoad), ("source_url", Str(url))];
    LookupAt(fs, 0, "value");
    LookupAbsent(fs, "display");
  }

  /** A one-key dict plus `source_url`, whose key is neither `display` nor `value`, is never emitted. */
  lemma SourcedPairNotEmitted(key: string, v: Json, url: string)
    requires key != "display" && key != "value"
    ensures !Chunking.Emitted(Object([(key, v), ("source_url", Str(url))]))
  {
    var fs := [(key, v), ("source_url", Str(url))];
    LookupAbsent(fs, "display");
    LookupAbsent(fs, "value");
    NeitherDisplayNorValue(fs);
  }

  lemma AttributesEmitted(mf: Fields, url: string, expense: Json, risk: string, categoryInfo: Fields, lockIn: Json)
    requires PayloadDomain(mf) && expense.Object? && lockIn.Object?
    requires Lookup(lockIn.fields, "display") == None && Lookup(lockIn.fields, "value") == None
    ensures EmitsAsScraped(mf, SchemeAttributes(mf, url, expense, risk, categoryInfo, lockIn))
  {
    var a := SchemeAttributes(mf, url, expense, risk, categoryInfo, lockIn);
    MoneyEmitted(Get(mf, "min_investment_amount"), url);
    MoneyEmitted(Get(mf, "min_sip_investment"), url);
    ExitLoadEmitted(Get(mf, "exit_load"), url);
    SourcedPairNotEmitted("label", Str(risk), url);
    SourcedPairNotEmitted("name", Get(mf, "benchmark_name"), url);
    SourcedPairNotEmitted("summary", Get(categoryInfo, "tax_impact"), url);
    var sourced := lockIn.fields + [("source_url", Str(url))];
    LookupAppend(lockIn.fields, [("source_url", Str(url))], "display");
    LookupAppend(lockIn.fields, [("source_url", Str(url))], "value");
    NeitherDisplayNorValue(sourced);
  }

  /** A literal that evaluates has every part evaluated. */
  lemma DraftParts(mf: Fields, url: string, percent: Json -> Option<(Json, string)>)
    requires PayloadDomain(mf) && SchemeDraft(mf, url, percent).Ok?
    ensures Lookup(mf, "scheme_name").Some? && SubObject(mf, "amc_info").Ok?
    ensures FormatPercentage(Get(mf, "expense_ratio"), percent).Ok? && ExtractRiskLabel(mf).Ok?
    ensures SubObject(mf, "category_info").Ok? && ExtractLockIn(mf).Ok?
    ensures FormatPercentage(Get(mf, "expense_ratio"), percent).value.Object? && ExtractLockIn(mf).value.Object?
    ensures SchemeDraft(mf, url, percent).value == Draft(
      Lookup(mf, "scheme_name").value,
      SchemeMetadata(mf, SubObject(mf, "amc_info").value),
      SchemeAttributes(mf, url, FormatPercentage(Get(mf, "expense_ratio"), percent).value, ExtractRiskLabel(mf).value,
        SubObject(mf, "category_info").value, ExtractLockIn(mf).value))
  {
  }

  /** The metadata of the literal has no objective yet; its attributes cite the page and emit as scraped. */
  lemma DraftShape(mf: Fields, url: string, percent: Json -> Option<(Json, string)>)
    requires PayloadDomain(mf) && SchemeDraft(mf, url, percent).Ok?
    ensures Lookup(SchemeDraft(mf, url, percent).value.metadata, "objective") == None
    ensures Lookup(mf, "scheme_name") == Some(SchemeDraft(mf, url, percent).value.schemeName)
    ensures CitesPage(SchemeDraft(mf, url, percent).value.attributes, url)
    ensures EmitsAsScraped(mf, SchemeDraft(mf, url, percent).value.attributes)
  {
    DraftMetadata(mf, url, percent);
    DraftAttributesShape(mf, url, percent);
  }

  lemma DraftMetadata(mf: Fields, url: string, percent: Json -> Option<(Json, string)>)
    requires PayloadDomain(mf) && SchemeDraft(mf, url, percent).Ok?
    ensures Lookup(SchemeDraft(mf, url, percent).value.metadata, "objective") == None
    ensures Lookup(mf, "scheme_name") == Some(SchemeDraft(mf, url, percent).value.schemeName)
  {
    DraftParts(mf, url, percent);
    MetadataWithoutObjective(mf, SubObject(mf, "amc_info").value);
  }

  lemma MetadataWithoutObjective(mf: Fields, amc: Fields)
    ensures Lookup(SchemeMetadata(mf, amc), "objective") == None
  {
    LookupAbsent(SchemeMetadata(mf, amc), "objective");
  }

  lemma DraftAttributesShape(mf: Fields, url: string, percent: Json -> Option<(Json, string)>)
    requires PayloadDomain(mf) && SchemeDraft(mf, url, percent).Ok?
    ensures CitesPage(SchemeDraft(mf, url, percent).value.attributes, url)
    ensures EmitsAsScraped(mf, SchemeDraft(mf, url, percent).value.attributes)
  {
    DraftParts(mf, url, percent);
    DraftAttributes(mf, url, Get(mf, "expense_ratio"), percent, ExtractRiskLabel(mf).value, SubObject(mf, "category_info").value);
  }

  /** The attributes of the literal, from the evaluated parts. */
  lemma DraftAttributes(mf: Fields, url: string, raw: Json, percent: Json -> Option<(Json, string)>, risk: string, categoryInfo: Fields)
    requires PayloadDomain(mf) && FormatPercentage(raw, percent).Ok? && ExtractLockIn(mf).Ok?
    ensures var a := SchemeAttributes(mf, url, FormatPercentage(raw, percent).value, risk, categoryInfo, ExtractLockIn(mf).value);
      CitesPage(a, url) && EmitsAsScraped(mf, a)
  {
    PercentageUnsourced(raw, percent);
    LockInUnsourced(mf);
    AttributesCitePage(mf, url, FormatPercentage(raw, percent).value, risk, categoryInfo, ExtractLockIn(mf).value);
    AttributesEmitted(mf, url, FormatPercentage(raw, percent).value, risk, categoryInfo, ExtractLockIn(mf).value);
  }

  /** The record a successful scrape yields, key by key. */
  predicate ScrapedRecord(mf: Fields, url: string, fetchedAt: string, payload: Json)
  {
    var sid := Get(mf, "sid_url");
    var description := Get(mf, "description");
    && payload.Object?
    && Lookup(payload.fields, "scheme_key") == Some(Or(Get(mf, "search_id"), Get(mf, "scheme_code")))
    && Lookup(mf, "scheme_name").Some? && Lookup(payload.fields, "scheme_name") == Lookup(mf, "scheme_name")
    && Lookup(payload.fields, "source_url") == Some(Str(url))
    && Lookup(payload.fields, "fetched_at") == Some(Str(fetchedAt))
    && Lookup(payload.fields, "documents") == Some(Array(SidDocuments(mf, url)))
    && Lookup(payload.fields, "metadata").Some? && Lookup(payload.fields, "metadata").value.Object?
    && Lookup(Lookup(payload.fields, "metadata").value.fields, "objective")
         == (if Truthy(description) && description.Str? then Some(Str(Strip(description.s))) else None)
    && Lookup(payload.fields, "attributes").Some? && Lookup(payload.fields, "attributes").value.Object?
    && |Lookup(payload.fields, "attributes").value.fields| == 8
    && CitesPage(Lookup(payload.fields, "attributes").value.fields, url)
    && EmitsAsScraped(mf, Lookup(payload.fields, "attributes").value.fields)
  }

  /**
   * The record is built exactly when the dict literal evaluates and any
   * truthy `description` is a string. It is keyed by `search_id` (else
   * `scheme_code`), cites the scheme page at the top and on every
   * attribute, lists the SID document exactly when `sid_url` is truthy,
   * and carries the stripped objective exactly when `description` is
   * truthy.
   */
  lemma PayloadShape(mf: Fields, url: string, fetchedAt: string, percent: Json -> Option<(Json, string)>)
    requires PayloadDomain(mf)
    ensures SchemePayload(mf, url, fetchedAt, percent).Ok? <==>
      SchemeDraft(mf, url, percent).Ok? && (Truthy(Get(mf, "description")) ==> Get(mf, "description").Str?)
    ensures SchemePayload(mf, url, fetchedAt, percent).Ok? ==>
      ScrapedRecord(mf, url, fetchedAt, SchemePayload(mf, url, fetchedAt, percent).value)
  {
    if SchemePayload(mf, url, fetchedAt, percent).Ok? {
      var draft := SchemeDraft(mf, url, percent).value;
      DraftShape(mf, url, percent);
      var sid := Get(mf, "sid_url");
      var description := Get(mf, "description");
      var objective := if Truthy(description) then [("objective", Str(Strip(description.s)))] else [];
      var documents := if Truthy(sid) then [SidDocument(sid, url)] else [];
      RecordFields(mf, url, fetchedAt, draft, draft.metadata + objective, documents);
      LookupAppend(draft.metadata, objective, "objective");
    }
  }

  // ---------------------------------------------------------------------
  // From the scraper to the index

  predicate ChunksCite(cs: seq<Chunking.Chunk>, u: Json)
  {
    forall k :: 0 <= k < |cs| ==> Chunking.ChunkUrl(cs[k]) == u
  }

  /** Attributes that cite the scheme page yield sentences citing it. */
  lemma {:induction false} AttributeChunksCitePage(scheme: Json, url: string, attributes: Fields)
    requires CitesPage(attributes, url)
    ensures ChunksCite(Chunking.AttributeChunks(scheme, Str(url), attributes), Str(url))
  {
    if attributes != [] {
      assert forall k :: 1 <= k < |attributes| ==> attributes[1..][k - 1] == attributes[k];
      AttributeChunksCitePage(scheme, url, attributes[1..]);
      if Chunking.Emitted(attributes[0].1) {
        Chunking.AttributeChunkShape(scheme, Str(url), attributes[0].0, attributes[0].1);
      }
    }
  }

  /** The attributes dict of a scheme record (empty when there is none). */
  function ScrapedAttributes(payload: Json): Fields
  {
    if payload.Object? && Get(payload.fields, "attributes").Object? then Get(payload.fields, "attributes").fields else []
  }

  /** A scheme record's chunks, piece by piece. */
  lemma RecordChunksParts(payload: Json, scheme: Json, url: string, meta: Fields, attributes: Fields, docs: seq<Json>)
    requires payload.Object?
    requires Lookup(payload.fields, "scheme_name") == Some(scheme) && Lookup(payload.fields, "source_url") == Some(Str(url))
    requires Lookup(payload.fields, "metadata") == Some(Object(meta))
    requires Lookup(payload.fields, "attributes") == Some(Object(attributes))
    requires Lookup(payload.fields, "documents") == Some(Array(docs))
    requires Chunking.DocumentChunks(scheme, Str(url), docs).Ok?
    ensures Chunking.SchemeChunks(payload) == Ok(
      [Chunking.OverviewChunk(scheme, Str(url), meta)]
      + Chunking.AttributeChunks(scheme, Str(url), attributes)
      + Chunking.DocumentChunks(scheme, Str(url), docs).value)
  {
  }

  /** The SID sentence, when there is one, cites the SID link. */
  lemma SidChunks(scheme: Json, mf: Fields, url: string)
    ensures Chunking.DocumentChunks(scheme, Str(url), SidDocuments(mf, url)).Ok?
    ensures |Chunking.DocumentChunks(scheme, Str(url), SidDocuments(mf, url)).value| == if Truthy(Get(mf, "sid_url")) then 1 else 0
    ensures ChunksCite(Chunking.DocumentChunks(scheme, Str(url), SidDocuments(mf, url)).value, Get(mf, "sid_url"))
  {
    var sid := Get(mf, "sid_url");
    Chunking.DocumentChunksShape(scheme, Str(url), SidDocuments(mf, url));
    if Truthy(sid) {
      LookupAt(SidDocument(sid, url).fields, 1, "url");
    }
  }

  /** Attribute sentences come from the first four attributes only. */
  lemma ScrapedEmittedCount(mf: Fields, attributes: Fields)
    requires EmitsAsScraped(mf, attributes)
    ensures Chunking.EmittedCount(attributes) == Chunking.EmittedCount(attributes[..4])
  {
    assert attributes == attributes[..4] + attributes[4..];
    Chunking.EmittedCountConcat(attributes[..4], attributes[4..]);
    Chunking.EmittedCountNone(attributes[4..]);
  }

  /** Chunks citing `u`, then chunks citing `alt`: each cites one of the two. */
  lemma CitedParts(overview: Chunking.Chunk, ac: seq<Chunking.Chunk>, dc: seq<Chunking.Chunk>, u: Json, alt: Json)
    requires Chunking.ChunkUrl(overview) == u && ChunksCite(ac, u) && ChunksCite(dc, alt)
    requires !Truthy(alt) ==> dc == []
    ensures forall k :: 0 <= k < |[overview] + ac + dc| ==>
      Chunking.ChunkUrl(([overview] + ac + dc)[k]) == u
      || (Truthy(alt) && Chunking.ChunkUrl(([overview] + ac + dc)[k]) == alt)
  {
    var cs := [overview] + ac + dc;
    assert forall k :: 1 <= k < 1 + |ac| ==> cs[k] == ac[k - 1];
    assert forall k :: 1 + |ac| <= k < |cs| ==> cs[k] == dc[k - 1 - |ac|];
  }

  /**
   * A scraped record always chunks: one overview, one sentence per
   * emitted attribute (only the first four attributes can be), and one
   * sentence for the SID document when there is one. Every chunk cites
   * the scheme page, except the SID sentence, which cites the SID link.
   */
  lemma ScrapedRecordChunks(mf: Fields, url: string, fetchedAt: string, payload: Json)
    requires ScrapedRecord(mf, url, fetchedAt, payload)
    ensures Chunking.SchemeChunks(payload).Ok?
    ensures |Chunking.SchemeChunks(payload).value|
      == 1 + Chunking.EmittedCount(ScrapedAttributes(payload)[..4]) + (if Truthy(Get(mf, "sid_url")) then 1 else 0)
    ensures forall k :: 0 <= k < |Chunking.SchemeChunks(payload).value| ==>
      Chunking.ChunkUrl(Chunking.SchemeChunks(payload).value[k]) == Str(url)
      || (Truthy(Get(mf, "sid_url")) && Chunking.ChunkUrl(Chunking.SchemeChunks(payload).value[k]) == Get(mf, "sid_url"))
  {
    var scheme := Lookup(mf, "scheme_name").value;
    var attributes := ScrapedAttributes(payload);
    var meta := Lookup(payload.fields, "metadata").value.fields;
    SidChunks(scheme, mf, url);
    RecordChunksParts(payload, scheme, url, meta, attributes, SidDocuments(mf, url));
    var overview := Chunking.OverviewChunk(scheme, Str(url), meta);
    var ac := Chunking.AttributeChunks(scheme, Str(url), attributes);
    var dc := Chunking.DocumentChunks(scheme, Str(url), SidDocuments(mf, url)).value;
    Chunking.AttributeChunksShape(scheme, Str(url), attributes);
    AttributeChunksCitePage(scheme, url, attributes);
    ScrapedEmittedCount(mf, attributes);
    CitedParts(overview, ac, dc, Str(url), Get(mf, "sid_url"));
  }

  /** Every successful scrape yields a record the offline build can chunk, citing as above. */
  lemma ScrapeThenChunk(mf: Fields, url: string, fetchedAt: string, percent: Json -> Option<(Json, string)>)
    requires PayloadDomain(mf) && SchemePayload(mf, url, fetchedAt, percent).Ok?
    ensures Chunking.SchemeChunks(SchemePayload(mf, url, fetchedAt, percent).value).Ok?
    ensures Chunking.CountType(Chunking.SchemeChunks(SchemePayload(mf, url, fetchedAt, percent).value).value, Chunking.OverviewType) == 1
  {
    PayloadShape(mf, url, fetchedAt, percent);
    ScrapedRecordChunks(mf, url, fetchedAt, SchemePayload(mf, url, fetchedAt, percent).value);
    Chunking.SchemeChunksShape(SchemePayload(mf, url, fetchedAt, percent).value);
  }
}
