/**
 * The page controller: the language table, the submit handler that asks the
 * generation endpoint for an explanation and records it in the history, and
 * the handler that reopens a history entry without asking again.
 */
module Page {
  import opened Wrappers
  import opened Text
  import opened Results
  import opened History
  import opened RecentSearches

  /** One selectable native language; the flag emoji shown beside it is left out. */
  datatype Language = Language(value: string, labelText: string)

  const Languages: seq<Language> := [
    Language("arabic", "العربية (Arabisk)"),
    Language("somali", "Soomaali (Somalisk)"),
    Language("polish", "Polski (Polsk)"),
    Language("tigrinya", "ትግርኛ (Tigrinja)"),
    Language("english", "English (Engelsk)"),
    Language("ukrainian", "Українська (Ukrainsk)"),
    Language("spanish", "Español (Spansk)"),
    Language("vietnamese", "Tiếng Việt (Vietnamesisk)")
  ]

  /** The index of the first entry at or after `i` whose value is `value` (or `|table|`). */
  function LanguageIndex(table: seq<Language>, value: string, i: nat): (k: nat)
    requires i <= |table|
    ensures i <= k <= |table|
    ensures forall j :: i <= j < k ==> table[j].value != value
    ensures k == |table| || table[k].value == value
    decreases |table| - i
  {
    if i < |table| && table[i].value != value then LanguageIndex(table, value, i + 1) else i
  }

  /** `languages.find((l) => l.value === value)` */
  function FindLanguage(table: seq<Language>, value: string): (r: Option<Language>)
    ensures r.Some? ==> r.value in table && r.value.value == value
    ensures r.None? <==> forall i :: 0 <= i < |table| ==> table[i].value != value
    ensures r.Some? ==> exists i :: 0 <= i < |table| && table[i] == r.value
                                    && forall j :: 0 <= j < i ==> table[j].value != value
  {
    var k := LanguageIndex(table, value, 0);
    if k < |table| then Some(table[k]) else None
  }

  /**
   * `selectedLanguage?.label.split(" ")[0] || language`: the first word of the
   * table label, or the raw value when the value is not in the table or that
   * word is empty.
   */
  function LanguageLabel(table: seq<Language>, value: string): (r: string)
    ensures FindLanguage(table, value).None? ==> r == value
    ensures FindLanguage(table, value).Some? ==>
              var text := FindLanguage(table, value).value.labelText;
              if FirstWord(text) == "" then r == value
              else r != "" && |r| <= |text| && ' ' !in r && r == text[..|r|] && (|r| == |text| || text[|r|] == ' ')
  {
    match FindLanguage(table, value)
    case None => value
    case Some(l) => if FirstWord(l.labelText) == "" then value else FirstWord(l.labelText)
  }

  /** Supports `EnglishLabel`: the table's entry for "english". */
  lemma EnglishEntry()
    ensures FindLanguage(Languages, "english") == Some(Language("english", "English (Engelsk)"))
  {
    assert forall i :: 0 <= i < 4 ==> Languages[i].value != "english";
  }

  /** Supports `EnglishLabel`: the first word of the English table label. */
  lemma EnglishFirstWord()
    ensures FirstWord("English (Engelsk)") == "English"
  {
    var text := "English (Engelsk)";
    assert text[7] == ' ';
    assert forall i :: 0 <= i < 7 ==> text[i] != ' ';
    assert SpaceIndex(text, 0) == 7;
  }

  /** The table's English entry is shown as "English". */
  lemma EnglishLabel()
    ensures LanguageLabel(Languages, "english") == "English"
  {
    EnglishEntry();
    EnglishFirstWord();
  }

  /** Supports `VietnameseLabel`: the table's entry for "vietnamese". */
  lemma VietnameseEntry()
    ensures FindLanguage(Languages, "vietnamese") == Some(Language("vietnamese", "Tiếng Việt (Vietnamesisk)"))
  {
    assert forall i :: 0 <= i < 7 ==> Languages[i].value != "vietnamese";
  }

  /** Supports `VietnameseLabel`: the first word of the Vietnamese table label. */
  lemma VietnameseFirstWord()
    ensures FirstWord("Tiếng Việt (Vietnamesisk)") == "Tiếng"
  {
    var text := "Tiếng Việt (Vietnamesisk)";
    assert text[5] == ' ';
    assert forall i :: 0 <= i < 5 ==> text[i] != ' ';
    assert SpaceIndex(text, 0) == 5;
  }

  /** A label of two words loses its second: the Vietnamese entry is shown, and sent, as "Tiếng". */
  lemma VietnameseLabel()
    ensures LanguageLabel(Languages, "vietnamese") == "Tiếng"
  {
    VietnameseEntry();
    VietnameseFirstWord();
  }

  /** A value outside the table is shown as it is. */
  lemma UnknownValueLabel(value: string)
    requires forall i :: 0 <= i < |Languages| ==> Languages[i].value != value
    ensures LanguageLabel(Languages, value) == value
  {
  }

  /** The submit guard: a language is chosen and the term is not blank. */
  predicate CanSubmit(language: string, term: string)
  {
    language != "" && Trim(term) != ""
  }

  /** The body posted to the generation endpoint. */
  datatype Request = Request(term: string, language: string)

  /** How the request turned out: parsed result data, or any failure (transport, non-2xx status, bad JSON). */
  datatype Response = Ok(data: ResultData) | Failed

  const FailureMessage: string := "Noe gikk galt. Vennligst prøv igjen."

  /** The page's state, with the history hook it uses. */
  class Home {
    var language: string
    var term: string
    var isLoading: bool
    var result: Option<ResultData>
    var error: Option<string>
    var activeLanguageLabel: string
    const store: HistoryStore
    /** The language table the page renders and looks labels up in. */
    const languages: seq<Language>

    constructor(store: HistoryStore)
      ensures this.store == store && languages == Languages
      ensures language == "" && term == "" && !isLoading && result == None && error == None
      ensures activeLanguageLabel == ""
    {
      this.store := store;
      languages := Languages;
      language := "";
      term := "";
      isLoading := false;
      result := None;
      error := None;
      activeLanguageLabel := "";
    }

    /** The term input's change handler. */
    method EditTerm(text: string)
      modifies this`term
      ensures term == text
    {
      term := text;
    }

    /** The language select's change handler. */
    method ChooseLanguage(value: string)
      modifies this`language
      ensures language == value
    {
      language := value;
    }

    /**
     * `handleSubmit`, with the endpoint's answer passed in as `response` and
     * the new history entry's id and timestamp as `id` and `timestamp`.
     * Returns the request sent, or nothing when the guard rejects the form.
     */
    method Submit(response: Response, id: string, timestamp: int) returns (request: Option<Request>)
      modifies this, store`history
      ensures term == old(term) && language == old(language)
      ensures request.None? <==> !CanSubmit(old(language), old(term))
      ensures request.None? ==> unchanged(this) && store.history == old(store.history)
      ensures request.Some? ==>
                request.value == Request(Trim(old(term)), LanguageLabel(languages, old(language))) && !isLoading
      ensures request.Some? && response.Ok? ==>
                && result == Some(response.data) && error == None
                && activeLanguageLabel == request.value.language
                && store.history == AddEntry(old(store.history), id, request.value.term, old(language),
                                             request.value.language, response.data, timestamp)
                && store.history[0].term == request.value.term && store.history[0].language == old(language)
                && forall i :: 1 <= i < |store.history| ==>
                     !SameKey(store.history[i], request.value.term, old(language))
      ensures request.Some? && response.Failed? ==>
                && result == None && error == Some(FailureMessage)
                && activeLanguageLabel == old(activeLanguageLabel)
                && store.history == old(store.history)
    {
      // The handler sees the term and language of the render it was created in.
      var typed, chosen := term, language;
      var trimmed := Trim(typed);
      if chosen == "" || trimmed == "" {
        return None;
      }
      isLoading := true;
      error := None;
      result := None;
      var languageLabel := LanguageLabel(languages, chosen);
      request := Some(Request(trimmed, languageLabel));
      match response {
        case Ok(data) =>
          Succeed(data, typed, chosen, languageLabel, id, timestamp);
        case Failed =>
          error := Some(FailureMessage);
      }
      isLoading := false;
    }

    /** The success branch of `handleSubmit`: show the result and record it in the history. */
    method Succeed(data: ResultData, typed: string, chosen: string, languageLabel: string, id: string, timestamp: int)
      modifies this`result, this`activeLanguageLabel, store`history
      ensures result == Some(data) && activeLanguageLabel == languageLabel
      ensures store.history == AddEntry(old(store.history), id, Trim(typed), chosen, languageLabel, data, timestamp)
      ensures store.history[0].term == Trim(typed) && store.history[0].language == chosen
      ensures forall i :: 1 <= i < |store.history| ==> !SameKey(store.history[i], Trim(typed), chosen)
    {
      result := Some(data);
      activeLanguageLabel := languageLabel;
      store.Add(Trim(typed), chosen, languageLabel, data, id, timestamp);
      AddFromPageKeyUnique(old(store.history), id, typed, chosen, languageLabel, data, timestamp);
    }

    /** `handleHistorySelect`: restore the form and the cached result; no request is made and the history is untouched. */
    method SelectHistoryItem(item: HistoryItem)
      modifies this
      ensures term == item.term && language == item.language
      ensures result == Some(item.result) && activeLanguageLabel == item.languageLabel && error == None
      ensures isLoading == old(isLoading)
    {
      term := item.term;
      language := item.language;
      result := Some(item.result);
      activeLanguageLabel := item.languageLabel;
      error := None;
    }

    /** The recent-searches strip is rendered only once the history is loaded, and only when it is not empty. */
    function HistoryStrip(now: int): (r: Option<seq<Chip>>)
      reads this, store
      ensures r.None? <==> !store.isLoaded || store.history == []
      ensures r.Some? ==> r == View(store.history, now)
    {
      if store.isLoaded then View(store.history, now) else None
    }

    /** The language name shown on the result cards. */
    function DisplayLanguage(): (r: string)
      reads this
      ensures activeLanguageLabel != "" ==> r == activeLanguageLabel
      ensures activeLanguageLabel == "" ==> r == LanguageLabel(languages, language)
      ensures activeLanguageLabel == "" && language != "" ==> r != ""
    {
      if activeLanguageLabel != "" then activeLanguageLabel else LanguageLabel(languages, language)
    }
  }
}
