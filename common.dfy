/** Values shared by the pages: optional values, the result of a remote call,
    and the catalog records (languages and voice personas) that each page
    declares as a constant array and searches with `find`. */
module Common {

  datatype Option<+T> = None | Some(value: T)

  /** The settled result of one awaited call on the backend client: the value
      it resolved to, or the message of the error it threw. */
  datatype Outcome<+T> = Ok(value: T) | Failed(message: string)

  /** One entry of a page's language picker. */
  datatype Language = Language(code: string, name: string)

  /** One entry of a page's voice picker: a named persona with a gender and a tone. */
  datatype Persona = Persona(id: string, name: string, gender: string, tone: string)

  /** The picker's lookup by code: the first entry with that code, if any. */
  function FindLanguage(languages: seq<Language>, code: string): (r: Option<Language>)
    ensures r.Some? ==> r.value in languages && r.value.code == code
    ensures r.Some? ==> exists i :: FirstLanguageAt(languages, code, 0, i) && r.value == languages[i]
    ensures r.None? <==> forall i :: 0 <= i < |languages| ==> languages[i].code != code
    ensures r.Some? <==> HasLanguage(languages, code)
  {
    FindLanguageFrom(languages, code, 0)
  }

  /** The scan of `find`, from index `from` on. */
  function FindLanguageFrom(languages: seq<Language>, code: string, from: nat): (r: Option<Language>)
    requires from <= |languages|
    ensures r.Some? ==> r.value in languages[from..] && r.value.code == code
    ensures r.Some? ==> exists i :: FirstLanguageAt(languages, code, from, i) && r.value == languages[i]
    ensures r.None? <==> forall i :: from <= i < |languages| ==> languages[i].code != code
    decreases |languages| - from
  {
    if from == |languages| then None
    else if languages[from].code == code then Some(languages[from])
    else FindLanguageFrom(languages, code, from + 1)
  }

  /** The picker's lookup by id: the first persona with that id, if any. */
  function FindPersona(personas: seq<Persona>, id: string): (r: Option<Persona>)
    ensures r.Some? ==> r.value in personas && r.value.id == id
    ensures r.Some? ==> exists i :: FirstPersonaAt(personas, id, 0, i) && r.value == personas[i]
    ensures r.None? <==> forall i :: 0 <= i < |personas| ==> personas[i].id != id
    ensures r.Some? <==> HasPersona(personas, id)
  {
    FindPersonaFrom(personas, id, 0)
  }

  /** The scan of `find`, from index `from` on. */
  function FindPersonaFrom(personas: seq<Persona>, id: string, from: nat): (r: Option<Persona>)
    requires from <= |personas|
    ensures r.Some? ==> r.value in personas[from..] && r.value.id == id
    ensures r.Some? ==> exists i :: FirstPersonaAt(personas, id, from, i) && r.value == personas[i]
    ensures r.None? <==> forall i :: from <= i < |personas| ==> personas[i].id != id
    decreases |personas| - from
  {
    if from == |personas| then None
    else if personas[from].id == id then Some(personas[from])
    else FindPersonaFrom(personas, id, from + 1)
  }

  /** When no two entries share a code, `find` by an entry's code returns that entry. */
  lemma FindLanguageOfDistinct(languages: seq<Language>, i: nat)
    requires i < |languages|
    requires forall a, b :: 0 <= a < b < |languages| ==> languages[a].code != languages[b].code
    ensures FindLanguage(languages, languages[i].code) == Some(languages[i])
  {
    var r := FindLanguage(languages, languages[i].code);
    var j :| FirstLanguageAt(languages, languages[i].code, 0, j) && r.value == languages[j];
    assert j == i;
  }

  /** When no two personas share an id, `find` by a persona's id returns that persona. */
  lemma FindPersonaOfDistinct(personas: seq<Persona>, i: nat)
    requires i < |personas|
    requires forall a, b :: 0 <= a < b < |personas| ==> personas[a].id != personas[b].id
    ensures FindPersona(personas, personas[i].id) == Some(personas[i])
  {
    var r := FindPersona(personas, personas[i].id);
    var j :| FirstPersonaAt(personas, personas[i].id, 0, j) && r.value == personas[j];
    assert j == i;
  }

  /** Entry `i` is the first at or after `from` with this code. */
  predicate FirstLanguageAt(languages: seq<Language>, code: string, from: nat, i: int) {
    from <= i < |languages| && languages[i].code == code
    && forall j :: from <= j < i ==> languages[j].code != code
  }

  /** Persona `i` is the first at or after `from` with this id. */
  predicate FirstPersonaAt(personas: seq<Persona>, id: string, from: nat, i: int) {
    from <= i < |personas| && personas[i].id == id
    && forall j :: from <= j < i ==> personas[j].id != id
  }

  /** Some entry of the language catalog has this code. */
  predicate HasLanguage(languages: seq<Language>, code: string) {
    exists i :: 0 <= i < |languages| && languages[i].code == code
  }

  /** Some persona of the catalog has this id. */
  predicate HasPersona(personas: seq<Persona>, id: string) {
    exists i :: 0 <= i < |personas| && personas[i].id == id
  }

  /** The name of a catalog entry that may not have been found. */
  function LanguageName(l: Option<Language>): Option<string> {
    if l.Some? then Some(l.value.name) else None
  }

  /** The name of a persona that may not have been found. */
  function PersonaName(p: Option<Persona>): Option<string> {
    if p.Some? then Some(p.value.name) else None
  }
}
