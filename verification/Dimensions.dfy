/** The thresholded dimensions and the immutable body of a published aggregate. */
module Dimensions {
  import opened Basics
  import opened Candidate

  datatype Dimension = Language | Tactic | Channel

  predicate StableChar(c: char) { 'a' <= c <= 'z' || '0' <= c <= '9' || c == '_' }

  predicate StableId(s: string) {
    1 <= |s| <= 64 && 'a' <= s[0] <= 'z' && forall i :: 0 <= i < |s| ==> StableChar(s[i])
  }

  function Prefix(d: Dimension): string {
    match d
    case Language => ""
    case Tactic => "tactic."
    case Channel => "channel."
  }

  /** The identifiers one contribution carries in a dimension, each once. */
  function Identifiers(row: Row, d: Dimension): set<string> {
    var values := if d.Language? then {row.language} else row.meta.signals;
    set v | v in values && Prefix(d) <= v && StableId(v[|Prefix(d)|..]) :: v[|Prefix(d)|..]
  }

  ghost function Carriers(rows: Rows, s: set<Token>, d: Dimension, id: string): set<Token>
    requires s <= rows.Keys
  {
    set t | t in s && id in Identifiers(rows[t], d)
  }

  /** The identifiers that at least ten of the contributions in `s` carry. */
  ghost function Thresholded(rows: Rows, s: set<Token>, d: Dimension): set<string>
    requires s <= rows.Keys
  {
    set t, id | t in s && id in Identifiers(rows[t], d)
                && |Carriers(rows, s, d, id)| >= MINIMUM_CONTRIBUTORS :: id
  }

  lemma ThresholdedExactly(rows: Rows, s: set<Token>, d: Dimension, id: string)
    requires s <= rows.Keys
    ensures id in Thresholded(rows, s, d) <==> |Carriers(rows, s, d, id)| >= MINIMUM_CONTRIBUTORS
  {
    if |Carriers(rows, s, d, id)| >= MINIMUM_CONTRIBUTORS {
      assert Carriers(rows, s, d, id) != {};
      var t :| t in Carriers(rows, s, d, id);
    }
  }

  function CountBand(n: nat): Option<string> {
    if n < 10 then None
    else if n < 25 then Some("10-24")
    else if n < 50 then Some("25-49")
    else if n < 100 then Some("50-99")
    else if n < 250 then Some("100-249")
    else Some("250+")
  }

  /** What is published about a candidate: values over its unexpired contributions only. */
  ghost function BodyOf(bucket: string, period: nat, rows: Rows, publication: Publication, now: nat): Body {
    var s := Unexpired(rows, now);
    CappedNonNegative(rows, s);
    Body(bucket, period, |s|, CappedSum(rows, s),
         Thresholded(rows, s, Language), Thresholded(rows, s, Tactic), Thresholded(rows, s, Channel),
         CountBand(|s|), CountBand(CappedSum(rows, s)),
         publication.startedAt + AGGREGATE_SECONDS)
  }

  // ---------------------------------------------------------------- in the contributions' own terms

  /** Those of the contributions that are in this language. */
  ghost function Speaking(rows: Rows, s: set<Token>, language: string): set<Token>
    requires s <= rows.Keys
  {
    set t | t in s && rows[t].language == language
  }

  /** Those of the contributions that carry this signal. */
  ghost function Signalling(rows: Rows, s: set<Token>, signal: string): set<Token>
    requires s <= rows.Keys
  {
    set t | t in s && signal in rows[t].meta.signals
  }

  /** An identifier is listed when it is a stable one and ten contributions carry it: as their language, or
      behind the prefix that tells tactics from channels among their signals. */
  ghost predicate ListsWhatTenCarry(body: Body, rows: Rows, s: set<Token>)
    requires s <= rows.Keys
  {
    && (forall x :: x in body.languages <==> StableId(x) && |Speaking(rows, s, x)| >= 10)
    && (forall x :: x in body.tactics <==> StableId(x) && |Signalling(rows, s, "tactic." + x)| >= 10)
    && (forall x :: x in body.channels <==> StableId(x) && |Signalling(rows, s, "channel." + x)| >= 10)
  }

  /** The band a count is published as; below ten there is none. */
  ghost predicate InBand(n: int, band: Option<string>) {
    && (band.None? <==> n < 10)
    && (band == Some("10-24") <==> 10 <= n <= 24) && (band == Some("25-49") <==> 25 <= n <= 49)
    && (band == Some("50-99") <==> 50 <= n <= 99) && (band == Some("100-249") <==> 100 <= n <= 249)
    && (band == Some("250+") <==> 250 <= n)
  }

  /** The body is the thresholded aggregate of the contributors in `s`. */
  ghost predicate Aggregates(body: Body, rows: Rows, s: set<Token>)
    requires s <= rows.Keys
  {
    && body.contributors == |s| && body.submissions == CappedSum(rows, s)
    && InBand(|s|, body.contributorBand) && InBand(CappedSum(rows, s), body.submissionBand)
    && ListsWhatTenCarry(body, rows, s)
  }

  lemma Unprefixed(prefix: string, x: string)
    ensures prefix <= prefix + x && (prefix + x)[|prefix|..] == x
  {
  }

  lemma CarriesSignal(row: Row, d: Dimension, x: string)
    requires d.Tactic? || d.Channel?
    ensures x in Identifiers(row, d) <==> StableId(x) && Prefix(d) + x in row.meta.signals
  {
    Unprefixed(Prefix(d), x);
    if x in Identifiers(row, d) {
      var v :| v in row.meta.signals && Prefix(d) <= v && x == v[|Prefix(d)|..];
      assert v == Prefix(d) + x;
    }
  }

  lemma CarriesLanguage(row: Row, x: string)
    ensures x in Identifiers(row, Language) <==> StableId(x) && row.language == x
  {
    assert Prefix(Language) <= row.language && row.language[|Prefix(Language)|..] == row.language;
  }

  lemma LanguagesSpelled(rows: Rows, s: set<Token>, x: string)
    requires s <= rows.Keys
    ensures x in Thresholded(rows, s, Language) <==> StableId(x) && |Speaking(rows, s, x)| >= 10
  {
    ThresholdedExactly(rows, s, Language, x);
    forall t | t in s ensures t in Carriers(rows, s, Language, x) <==> StableId(x) && t in Speaking(rows, s, x) {
      CarriesLanguage(rows[t], x);
    }
    assert Carriers(rows, s, Language, x) == if StableId(x) then Speaking(rows, s, x) else {};
  }

  lemma SignalsSpelled(rows: Rows, s: set<Token>, d: Dimension, x: string)
    requires s <= rows.Keys && (d.Tactic? || d.Channel?)
    ensures x in Thresholded(rows, s, d) <==> StableId(x) && |Signalling(rows, s, Prefix(d) + x)| >= 10
  {
    ThresholdedExactly(rows, s, d, x);
    forall t | t in s ensures t in Carriers(rows, s, d, x) <==> StableId(x) && t in Signalling(rows, s, Prefix(d) + x) {
      CarriesSignal(rows[t], d, x);
    }
    assert Carriers(rows, s, d, x) == if StableId(x) then Signalling(rows, s, Prefix(d) + x) else {};
  }

  lemma Bands(n: nat)
    ensures InBand(n, CountBand(n))
  {
    assert "10-24"[0] == '1' && "25-49"[1] == '5' && "50-99"[0] == '5' && "100-249"[1] == '0' && |"250+"| == 4 && |"100-249"| == 7;
    assert "10-24"[2] == '-' && "25-49"[0] == '2';
  }

  lemma BodyAggregates(bucket: string, period: nat, rows: Rows, publication: Publication, now: nat)
    ensures Aggregates(BodyOf(bucket, period, rows, publication, now), rows, Unexpired(rows, now))
  {
    var s := Unexpired(rows, now);
    var body := BodyOf(bucket, period, rows, publication, now);
    CappedNonNegative(rows, s);
    Bands(|s|);
    Bands(CappedSum(rows, s));
    forall x ensures x in body.languages <==> StableId(x) && |Speaking(rows, s, x)| >= 10 { LanguagesSpelled(rows, s, x); }
    forall x ensures x in body.tactics <==> StableId(x) && |Signalling(rows, s, "tactic." + x)| >= 10 { SignalsSpelled(rows, s, Tactic, x); }
    forall x ensures x in body.channels <==> StableId(x) && |Signalling(rows, s, "channel." + x)| >= 10 { SignalsSpelled(rows, s, Channel, x); }
  }
}
