/** The dashboard: the user's most recent voice generations and the four
    figures computed from them when they load (how many, how many characters
    of script, how many this month, and a favourite language), plus the
    lookups that turn a stored language code or voice id into a name. */
module Dashboard {
  import opened Common
  import VoiceGenerator

  /** A calendar month as `Date.getFullYear()` and `Date.getMonth()` give it
      in the browser's time zone. */
  datatype YearMonth = YearMonth(year: int, month: int)

  /** One stored voice generation as listed for the user. `createdAt` is the
      month of its timestamp, or None when the stored text is not a date
      (`new Date` then yields NaN, which equals no month). */
  datatype GenerationRow = GenerationRow(
    id: string,
    script: Option<string>,
    language: string,
    voice: string,
    audioUrl: string,
    createdAt: Option<YearMonth>)

  datatype Stats = Stats(totalGenerations: nat, totalCharacters: nat, favoriteLanguage: string, thisMonth: nat)

  /** The figures shown before anything has loaded. */
  const InitialStats: Stats := Stats(0, 0, "Hindi", 0)

  // ---------------------------------------------------------------------
  // Aggregation

  /** The length of a row's script, counting a missing script as empty. */
  function ScriptLength(row: GenerationRow): nat {
    if row.script.Some? then |row.script.value| else 0
  }

  /** The characters of script over all rows, summed from the first row on. */
  function TotalCharacters(rows: seq<GenerationRow>): nat {
    if rows == [] then 0 else TotalCharacters(rows[..|rows| - 1]) + ScriptLength(rows[|rows| - 1])
  }

  /** The character total adds up over any split of the list. */
  lemma {:induction false} TotalCharactersAppend(a: seq<GenerationRow>, b: seq<GenerationRow>)
    ensures TotalCharacters(a + b) == TotalCharacters(a) + TotalCharacters(b)
    decreases |b|
  {
    if b == [] {
      assert a + b == a;
    } else {
      assert (a + b)[..|a + b| - 1] == a + b[..|b| - 1];
      TotalCharactersAppend(a, b[..|b| - 1]);
    }
  }

  /** Every row's script length is part of the total. */
  lemma {:induction false} TotalCharactersCountsEachRow(rows: seq<GenerationRow>, i: nat)
    requires i < |rows|
    ensures ScriptLength(rows[i]) <= TotalCharacters(rows)
  {
    assert rows == rows[..i] + [rows[i]] + rows[i + 1..];
    TotalCharactersAppend(rows[..i] + [rows[i]], rows[i + 1..]);
    TotalCharactersAppend(rows[..i], [rows[i]]);
    assert [rows[i]][..0] == [];
  }

  /** The total is zero exactly when no row has a non-empty script. */
  lemma {:induction false} TotalCharactersZero(rows: seq<GenerationRow>)
    ensures TotalCharacters(rows) == 0 <==> forall i :: 0 <= i < |rows| ==> ScriptLength(rows[i]) == 0
  {
    if rows != [] {
      var init := rows[..|rows| - 1];
      TotalCharactersZero(init);
      assert forall i :: 0 <= i < |init| ==> init[i] == rows[i];
    }
  }

  /** The row was created in the same month of the same year as `now`. */
  predicate InMonth(row: GenerationRow, now: YearMonth) {
    row.createdAt == Some(now)
  }

  /** The rows created in the current month, in their listed order; the
      dashboard shows how many there are. */
  function ThisMonthRows(rows: seq<GenerationRow>, now: YearMonth): (r: seq<GenerationRow>)
    ensures |r| <= |rows|
    ensures forall row :: row in r <==> row in rows && InMonth(row, now)
  {
    if rows == [] then []
    else (if InMonth(rows[0], now) then [rows[0]] else []) + ThisMonthRows(rows[1..], now)
  }

  /** Filtering a concatenation filters each part. */
  lemma {:induction false} ThisMonthRowsAppend(a: seq<GenerationRow>, b: seq<GenerationRow>, now: YearMonth)
    ensures ThisMonthRows(a + b, now) == ThisMonthRows(a, now) + ThisMonthRows(b, now)
    decreases |a|
  {
    if a == [] {
      assert a + b == b;
    } else {
      assert (a + b)[0] == a[0] && (a + b)[1..] == a[1..] + b;
      ThisMonthRowsAppend(a[1..], b, now);
    }
  }

  /** The filter keeps every row of this month as often as it is listed and
      no other row, so the count shown is the number of listed rows of this
      month. */
  lemma {:induction false} ThisMonthRowsMultiset(rows: seq<GenerationRow>, now: YearMonth)
    ensures forall row :: multiset(ThisMonthRows(rows, now))[row] == if InMonth(row, now) then multiset(rows)[row] else 0
  {
    if rows != [] {
      ThisMonthRowsMultiset(rows[1..], now);
      assert rows == [rows[0]] + rows[1..];
    }
  }

  /** The this-month count is the whole list exactly when every row is from this month. */
  lemma {:induction false} ThisMonthAll(rows: seq<GenerationRow>, now: YearMonth)
    ensures |ThisMonthRows(rows, now)| == |rows| <==> forall i :: 0 <= i < |rows| ==> InMonth(rows[i], now)
  {
    if rows != [] {
      ThisMonthAll(rows[1..], now);
      assert forall i :: 1 <= i < |rows| ==> rows[1..][i - 1] == rows[i];
    }
  }

  /** The this-month count is zero exactly when no row is from this month. */
  lemma ThisMonthNone(rows: seq<GenerationRow>, now: YearMonth)
    ensures ThisMonthRows(rows, now) == [] <==> forall i :: 0 <= i < |rows| ==> !InMonth(rows[i], now)
  {
    var r := ThisMonthRows(rows, now);
    if r != [] {
      assert r[0] in r;
    }
  }

  /** The stats `loadGenerations` sets once the list arrives: the count of
      rows, their character total, the rows of this month, and "Hindi",
      which does not depend on the data. */
  function ComputeStats(rows: seq<GenerationRow>, now: YearMonth): (s: Stats)
    ensures s.totalGenerations == |rows|
    ensures s.thisMonth <= s.totalGenerations
    ensures s.favoriteLanguage == InitialStats.favoriteLanguage
    ensures rows == [] ==> s == InitialStats
  {
    Stats(|rows|, TotalCharacters(rows), "Hindi", |ThisMonthRows(rows, now)|)
  }

  // ---------------------------------------------------------------------
  // Names

  const LanguageNames: map<string, string> := map[
    "hi" := "Hindi", "ta" := "Tamil", "te" := "Telugu", "gu" := "Gujarati",
    "bn" := "Bengali", "mr" := "Marathi", "kn" := "Kannada", "ml" := "Malayalam",
    "pa" := "Punjabi", "or" := "Odia", "as" := "Assamese", "ur" := "Urdu"]

  /** The display name of a stored language code, or the code itself when
      the lookup has no name for it. */
  function GetLanguageName(code: string): string {
    if code in LanguageNames then LanguageNames[code] else code
  }

  const VoiceNames: map<string, string> := map[
    "male-1" := "Arjun", "female-1" := "Priya", "male-2" := "Vikram", "female-2" := "Ananya"]

  /** The display name of a stored voice id, or the id itself when the
      lookup has no name for it. */
  function GetVoiceName(voiceId: string): string {
    if voiceId in VoiceNames then VoiceNames[voiceId] else voiceId
  }

  /** Every language of the voice generator's picker has its picker name here. */
  lemma PickerLanguagesNamed(i: nat)
    requires i < |VoiceGenerator.Languages|
    ensures GetLanguageName(VoiceGenerator.Languages[i].code) == VoiceGenerator.Languages[i].name
  {
  }

  /** Every code this lookup knows is offered by the voice generator's picker. */
  lemma NamedLanguagesInPicker(code: string)
    requires code in LanguageNames
    ensures HasLanguage(VoiceGenerator.Languages, code)
  {
    var i :=
      if code == "hi" then 0 else if code == "ta" then 1 else if code == "te" then 2
      else if code == "gu" then 3 else if code == "mr" then 4 else if code == "bn" then 5
      else if code == "kn" then 6 else if code == "ml" then 7 else if code == "pa" then 8
      else if code == "or" then 9 else if code == "as" then 10 else 11;
    assert VoiceGenerator.Languages[i].code == code;
  }

  /** The dashboard names a language exactly as the voice generator's
      picker does, and shows any code the picker does not offer as is. */
  lemma LanguageNameAgreesWithGenerator(code: string)
    ensures GetLanguageName(code) == (match FindLanguage(VoiceGenerator.Languages, code)
      case Some(l) => l.name
      case None => code)
  {
    var found := FindLanguage(VoiceGenerator.Languages, code);
    if code in LanguageNames {
      NamedLanguagesInPicker(code);
      var i :| 0 <= i < |VoiceGenerator.Languages| && VoiceGenerator.Languages[i] == found.value;
      PickerLanguagesNamed(i);
    } else if found.Some? {
      var i :| 0 <= i < |VoiceGenerator.Languages| && VoiceGenerator.Languages[i] == found.value;
      PickerLanguagesNamed(i);
    }
  }

  /** The first three personas carry the same name on both pages, but the
      dashboard calls "female-2" Ananya where the voice generator's picker
      says Anita, and it shows the ids of the last two personas unchanged. */
  lemma VoiceNamesAgainstGenerator()
    ensures forall i :: 0 <= i < 3 ==> GetVoiceName(VoiceGenerator.Personas[i].id) == VoiceGenerator.Personas[i].name
    ensures GetVoiceName(VoiceGenerator.Personas[3].id) != VoiceGenerator.Personas[3].name
    ensures forall i :: 4 <= i < |VoiceGenerator.Personas| ==> GetVoiceName(VoiceGenerator.Personas[i].id) == VoiceGenerator.Personas[i].id
  {
  }

  // ---------------------------------------------------------------------
  // The page

  /** The dashboard's state: the loaded rows, the loading flag and the figures. */
  class DashboardPage {
    var generations: seq<GenerationRow>
    var loading: bool
    var stats: Stats

    constructor ()
      ensures generations == [] && loading && stats == InitialStats
    {
      generations := [];
      loading := true;
      stats := InitialStats;
    }

    /** `loadGenerations`, given the settled list request and the current
        month: a loaded list replaces the rows and the figures; a failed one
        leaves both as they were; either way loading ends. */
    method LoadGenerations(listed: Outcome<seq<GenerationRow>>, now: YearMonth)
      modifies this
      ensures !loading
      ensures listed.Ok? ==> generations == listed.value && stats == ComputeStats(listed.value, now)
      ensures listed.Failed? ==> generations == old(generations) && stats == old(stats)
    {
      if listed.Ok? {
        var data := listed.value;
        generations := data;
        stats := ComputeStats(data, now);
      }
      loading := false;
    }
  }
}
