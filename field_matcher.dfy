/** The form-field suggestion matcher of AssistantService: a fixed category
    table matched against the user's profile, fuzzy matching of field names
    against the keys that were extracted from the user's documents, and the
    assembly of numbered, scored suggestion lists.  The documents that the
    service fetches from the database are given as a sequence of records;
    the random confidence scores are a nondeterministic choice in the
    documented range. */
module FieldMatcher {
  import opened Wrappers
  import opened Php

  // ---------------------------------------------------------------------
  // Entities
  // ---------------------------------------------------------------------

  datatype User = User(id: int, name: string, email: string)

  /** A stored document row; `extracted` is `None` for a NULL column. */
  datatype Document = Document(id: int, userId: int, status: string, extracted: Option<seq<(string, Json)>>)

  datatype Source = Profile | DocumentSource

  /** What a suggestion says, apart from its per-call id and its score. */
  datatype Match = Match(fieldName: string, value: Json, source: Source, sourceId: int)

  /** One element of the returned list, as serialised to JSON. */
  datatype Suggestion = Suggestion(id: int, fieldName: string, value: Json, confidence: int, source: Source, sourceId: int)

  datatype Category = Name | Email | Phone | Address | City | Zip | Country | DateOfBirth | Ssn

  const ProfileConfidence := 95
  const FormScoreLow := 75
  const FormScoreHigh := 90
  const DocumentScoreLow := 80
  const DocumentScoreHigh := 95

  /** The category table, in declaration order. */
  const Mappings: seq<(Category, seq<string>)> := [
    (Name, ["full_name", "first_name", "last_name", "customer_name"]),
    (Email, ["email_address", "contact_email", "user_email"]),
    (Phone, ["phone_number", "mobile", "contact_number", "telephone"]),
    (Address, ["street_address", "home_address", "billing_address"]),
    (City, ["city_name", "location", "municipality"]),
    (Zip, ["postal_code", "zip_code", "postcode"]),
    (Country, ["country_name", "nation"]),
    (DateOfBirth, ["birth_date", "dob", "birthday"]),
    (Ssn, ["social_security", "tax_id", "national_id"])
  ]

  function Stem(s: Suggestion): Match {
    Match(s.fieldName, s.value, s.source, s.sourceId)
  }

  /** `ss` realises the matches `ms` in order, numbered 1, 2, ..., with the
      profile score for profile matches and a score in [lo, hi] otherwise. */
  ghost predicate Scored(ss: seq<Suggestion>, ms: seq<Match>, lo: int, hi: int) {
    && |ss| == |ms|
    && forall i :: 0 <= i < |ss| ==>
         && ss[i].id == i + 1
         && Stem(ss[i]) == ms[i]
         && (if ms[i].source == Profile then ss[i].confidence == ProfileConfidence
             else lo <= ss[i].confidence <= hi)
  }

  // ---------------------------------------------------------------------
  // Key matching
  // ---------------------------------------------------------------------

  function Normalize(s: string): string {
    ToLower(StripSeparators(s))
  }

  /** `isFieldMatch`: equal after normalisation, or either contains the
      other; that is, either normalised name occurs in the other. */
  function IsFieldMatch(fieldName: string, dataKey: string): (r: bool)
    ensures r <==> OccursIn(Normalize(dataKey), Normalize(fieldName)) || OccursIn(Normalize(fieldName), Normalize(dataKey))
  {
    var f := Normalize(fieldName);
    var k := Normalize(dataKey);
    StrContainsIsOccurrence(f, k);
    StrContainsIsOccurrence(k, f);
    StrContainsReflexive(f);
    f == k || StrContains(f, k) || StrContains(k, f)
  }

  lemma FieldMatchReflexive(s: string)
    ensures IsFieldMatch(s, s)
  {
  }

  lemma FieldMatchSymmetric(a: string, b: string)
    ensures IsFieldMatch(a, b) == IsFieldMatch(b, a)
  {
  }

  /** A field name made only of separators matches every key. */
  lemma {:induction false} SeparatorOnlyFieldMatchesEverything(fieldName: string, dataKey: string)
    requires forall i :: 0 <= i < |fieldName| ==> IsSeparator(fieldName[i])
    ensures IsFieldMatch(fieldName, dataKey)
  {
    StripOnlySeparators(fieldName);
    EmptyNeedleIsContained(Normalize(dataKey));
  }

  // ---------------------------------------------------------------------
  // Category scan
  // ---------------------------------------------------------------------

  predicate PatternHits(lowered: string, pattern: string) {
    StrContains(lowered, pattern) || StrContains(pattern, lowered)
  }

  predicate CategoryHits(lowered: string, k: nat)
    requires k < |Mappings|
  {
    exists p :: p in Mappings[k].1 && PatternHits(lowered, p)
  }

  /** The category of the first table row, from row `k` on, that a pattern hits. */
  function FirstHit(lowered: string, k: nat): Option<Category>
    requires k <= |Mappings|
    decreases |Mappings| - k
  {
    if k == |Mappings| then None
    else if CategoryHits(lowered, k) then Some(Mappings[k].0)
    else FirstHit(lowered, k + 1)
  }

  /** The category a field name falls in; the scan does not strip separators. */
  function CategoryOf(fieldName: string): Option<Category> {
    FirstHit(ToLower(fieldName), 0)
  }

  /** The scan finds nothing exactly when no row from `k` on is hit. */
  lemma {:induction false} FirstHitNone(lowered: string, k: nat)
    requires k <= |Mappings|
    ensures FirstHit(lowered, k).None? <==> forall j :: k <= j < |Mappings| ==> !CategoryHits(lowered, j)
    decreases |Mappings| - k
  {
    if k < |Mappings| && !CategoryHits(lowered, k) {
      FirstHitNone(lowered, k + 1);
    }
  }

  /** A category found from row `k` on is that of a hit row `j` with no hit
      between `k` and `j`. */
  lemma {:induction false} FirstHitRow(lowered: string, k: nat) returns (j: nat)
    requires k <= |Mappings| && FirstHit(lowered, k).Some?
    ensures k <= j < |Mappings| && CategoryHits(lowered, j) && Mappings[j].0 == FirstHit(lowered, k).value
    ensures forall i :: k <= i < j ==> !CategoryHits(lowered, i)
    decreases |Mappings| - k
  {
    if CategoryHits(lowered, k) {
      j := k;
    } else {
      j := FirstHitRow(lowered, k + 1);
    }
  }

  /** Rows that the scan misses do not change where it stops. */
  lemma {:induction false} SkipMissedRows(lowered: string, a: nat, b: nat)
    requires a <= b <= |Mappings|
    requires forall k :: a <= k < b ==> !CategoryHits(lowered, k)
    ensures FirstHit(lowered, a) == FirstHit(lowered, b)
    decreases b - a
  {
    if a < b {
      SkipMissedRows(lowered, a + 1, b);
    }
  }

  /** A miss at row `k` followed by a hit at row `k + 1` stops the scan there. */
  lemma MissThenHit(lowered: string, k: nat)
    requires k + 1 < |Mappings|
    requires !CategoryHits(lowered, k) && CategoryHits(lowered, k + 1)
    ensures FirstHit(lowered, k) == Some(Mappings[k + 1].0)
  {
  }

  /** First match wins: the chosen category is the earliest row with a hit. */
  lemma CategoryOfIsFirstHit(fieldName: string)
    ensures CategoryOf(fieldName).None? <==> forall j :: 0 <= j < |Mappings| ==> !CategoryHits(ToLower(fieldName), j)
    ensures CategoryOf(fieldName).Some? ==>
              exists j :: 0 <= j < |Mappings| && CategoryHits(ToLower(fieldName), j)
                          && Mappings[j].0 == CategoryOf(fieldName).value
                          && forall i :: 0 <= i < j ==> !CategoryHits(ToLower(fieldName), i)
  {
    var lowered := ToLower(fieldName);
    FirstHitNone(lowered, 0);
    if CategoryOf(fieldName).Some? {
      var j := FirstHitRow(lowered, 0);
    }
  }

  /** The nested scan of the category table with its `break 2`. */
  method MatchCategory(fieldName: string) returns (matched: Option<Category>)
    ensures matched == CategoryOf(fieldName)
  {
    var lowered := ToLower(fieldName);
    matched := None;
    var k := 0;
    while k < |Mappings|
      invariant 0 <= k <= |Mappings|
      invariant matched == None
      invariant FirstHit(lowered, 0) == FirstHit(lowered, k)
    {
      var patterns := Mappings[k].1;
      var q := 0;
      while q < |patterns|
        invariant 0 <= q <= |patterns|
        invariant matched == None
        invariant forall p :: 0 <= p < q ==> !PatternHits(lowered, patterns[p])
      {
        if StrContains(lowered, patterns[q]) || StrContains(patterns[q], lowered) {
          assert patterns[q] in Mappings[k].1;
          matched := Some(Mappings[k].0);
          break break;
        }
        q := q + 1;
      }
      assert !CategoryHits(lowered, k);
      k := k + 1;
    }
  }

  // ---------------------------------------------------------------------
  // Matches from the profile and from documents
  // ---------------------------------------------------------------------

  /** At most one profile match, and only for the name and email categories. */
  function ProfileMatches(user: User, fieldName: string): (ms: seq<Match>)
    ensures |ms| <= 1
    ensures |ms| == 1 <==> CategoryOf(fieldName) == Some(Name) || CategoryOf(fieldName) == Some(Email)
    ensures |ms| == 1 ==>
              ms[0] == Match(fieldName, JString(if CategoryOf(fieldName) == Some(Name) then user.name else user.email),
                             Profile, user.id)
  {
    match CategoryOf(fieldName)
    case Some(Name) => [Match(fieldName, JString(user.name), Profile, user.id)]
    case Some(Email) => [Match(fieldName, JString(user.email), Profile, user.id)]
    case _ => []
  }

  /** PHP truthiness of the `extracted_data` attribute: non-null and non-empty. */
  predicate HasExtractedData(d: Document) {
    d.extracted.Some? && |d.extracted.value| > 0
  }

  /** The match, if any, that one extracted entry gives the field. */
  function KeyMatch(fieldName: string, docId: int, key: string, value: Json): seq<Match> {
    if IsFieldMatch(fieldName, key) && !IsEmpty(value) then [Match(fieldName, value, DocumentSource, docId)] else []
  }

  function EntryMatches(fieldName: string, docId: int, entries: seq<(string, Json)>): seq<Match> {
    if entries == [] then []
    else
      var last := entries[|entries| - 1];
      EntryMatches(fieldName, docId, entries[..|entries| - 1]) + KeyMatch(fieldName, docId, last.0, last.1)
  }

  function DocumentMatches(fieldName: string, d: Document): seq<Match> {
    if HasExtractedData(d) then EntryMatches(fieldName, d.id, d.extracted.value) else []
  }

  /** Document-then-key order across all documents. */
  function DocumentsMatches(fieldName: string, docs: seq<Document>): seq<Match> {
    if docs == [] then []
    else DocumentsMatches(fieldName, docs[..|docs| - 1]) + DocumentMatches(fieldName, docs[|docs| - 1])
  }

  /** The per-field list: the profile match first, then the document matches. */
  function FieldMatches(user: User, docs: seq<Document>, fieldName: string): seq<Match> {
    ProfileMatches(user, fieldName) + DocumentsMatches(fieldName, docs)
  }

  lemma {:induction false} EntryMatchesExactly(fieldName: string, docId: int, entries: seq<(string, Json)>, m: Match)
    ensures m in EntryMatches(fieldName, docId, entries) <==>
              exists j :: 0 <= j < |entries| && IsFieldMatch(fieldName, entries[j].0) && !IsEmpty(entries[j].1)
                          && m == Match(fieldName, entries[j].1, DocumentSource, docId)
  {
    if entries != [] {
      var init := entries[..|entries| - 1];
      EntryMatchesExactly(fieldName, docId, init, m);
      assert forall j :: 0 <= j < |init| ==> init[j] == entries[j];
    }
  }

  lemma {:induction false} DocumentsMatchesExactly(fieldName: string, docs: seq<Document>, m: Match)
    ensures m in DocumentsMatches(fieldName, docs) <==>
              exists i :: 0 <= i < |docs| && m in DocumentMatches(fieldName, docs[i])
  {
    if docs != [] {
      var init, last := docs[..|docs| - 1], docs[|docs| - 1];
      DocumentsMatchesExactly(fieldName, init, m);
      assert DocumentsMatches(fieldName, docs) == DocumentsMatches(fieldName, init) + DocumentMatches(fieldName, last);
      if m in DocumentsMatches(fieldName, init) {
        var i :| 0 <= i < |init| && m in DocumentMatches(fieldName, init[i]);
        assert init[i] == docs[i];
      } else if m in DocumentMatches(fieldName, last) {
        assert 0 <= |docs| - 1 < |docs|;
      }
      if exists i :: 0 <= i < |docs| && m in DocumentMatches(fieldName, docs[i]) {
        var i :| 0 <= i < |docs| && m in DocumentMatches(fieldName, docs[i]);
        if i < |init| {
          assert init[i] == docs[i];
        }
      }
    }
  }

  /** Every document match names the field, carries a non-empty value found
      under a matching key of a document with extracted data, and cites that
      document; and every such key yields a match. */
  lemma DocumentMatchIff(fieldName: string, docs: seq<Document>, m: Match)
    ensures m in DocumentsMatches(fieldName, docs) <==>
              exists i, j :: 0 <= i < |docs| && HasExtractedData(docs[i]) && 0 <= j < |docs[i].extracted.value|
                             && IsFieldMatch(fieldName, docs[i].extracted.value[j].0)
                             && !IsEmpty(docs[i].extracted.value[j].1)
                             && m == Match(fieldName, docs[i].extracted.value[j].1, DocumentSource, docs[i].id)
  {
    DocumentsMatchesExactly(fieldName, docs, m);
    forall i | 0 <= i < |docs| && HasExtractedData(docs[i]) {
      EntryMatchesExactly(fieldName, docs[i].id, docs[i].extracted.value, m);
    }
  }

  /** Every match of a field names that field. */
  lemma {:induction false} FieldMatchesNameTheField(user: User, docs: seq<Document>, fieldName: string)
    ensures forall m :: m in FieldMatches(user, docs, fieldName) ==> m.fieldName == fieldName
  {
    forall m | m in FieldMatches(user, docs, fieldName)
      ensures m.fieldName == fieldName
    {
      if m !in ProfileMatches(user, fieldName) {
        DocumentMatchIff(fieldName, docs, m);
      }
    }
  }

  /** Only the first suggestion of a field can come from the profile. */
  lemma {:induction false} ProfileMatchComesFirst(user: User, docs: seq<Document>, fieldName: string, i: nat)
    requires i < |FieldMatches(user, docs, fieldName)|
    requires FieldMatches(user, docs, fieldName)[i].source == Profile
    ensures i == 0
  {
    var ms := FieldMatches(user, docs, fieldName);
    if i >= |ProfileMatches(user, fieldName)| {
      var m := ms[i];
      assert m in DocumentsMatches(fieldName, docs);
      DocumentMatchIff(fieldName, docs, m);
    }
  }

  // ---------------------------------------------------------------------
  // generateFieldSuggestions
  // ---------------------------------------------------------------------

  lemma ScoredAppend(ss: seq<Suggestion>, ms: seq<Match>, s: Suggestion, m: Match, lo: int, hi: int)
    requires Scored(ss, ms, lo, hi)
    requires s.id == |ss| + 1 && Stem(s) == m
    requires if m.source == Profile then s.confidence == ProfileConfidence else lo <= s.confidence <= hi
    ensures Scored(ss + [s], ms + [m], lo, hi)
  {
  }

  /** One more entry adds its match, if any, at the end. */
  lemma EntryMatchesStep(fieldName: string, docId: int, entries: seq<(string, Json)>, e: nat)
    requires e < |entries|
    ensures EntryMatches(fieldName, docId, entries[..e + 1]) ==
              EntryMatches(fieldName, docId, entries[..e]) + KeyMatch(fieldName, docId, entries[e].0, entries[e].1)
  {
    assert entries[..e + 1][..e] == entries[..e];
  }

  /** One iteration of the inner `foreach`: a matching key with a non-empty
      value appends a suggestion with the next id and a score in [lo, hi];
      any other entry leaves the list as it was. */
  method AppendEntrySuggestion(fieldName: string, docId: int, key: string, value: Json,
                               suggestions: seq<Suggestion>, suggestionId: int,
                               ghost before: seq<Match>, lo: int, hi: int)
    returns (result: seq<Suggestion>, nextId: int)
    requires lo <= hi
    requires suggestionId == |suggestions| + 1
    requires Scored(suggestions, before, lo, hi)
    ensures nextId == |result| + 1
    ensures Scored(result, before + KeyMatch(fieldName, docId, key, value), lo, hi)
    ensures |suggestions| <= |result| && result[..|suggestions|] == suggestions
    ensures !(IsFieldMatch(fieldName, key) && !IsEmpty(value)) ==> result == suggestions
  {
    if IsFieldMatch(fieldName, key) && !IsEmpty(value) {
      var score :| lo <= score <= hi;
      var s := Suggestion(suggestionId, fieldName, value, score, DocumentSource, docId);
      ScoredAppend(suggestions, before, s, Stem(s), lo, hi);
      result, nextId := suggestions + [s], suggestionId + 1;
    } else {
      result, nextId := suggestions, suggestionId;
      assert before + KeyMatch(fieldName, docId, key, value) == before;
    }
  }

  /** One more document adds its matches at the end. */
  lemma DocumentsMatchesStep(fieldName: string, docs: seq<Document>, d: nat)
    requires d < |docs|
    ensures DocumentsMatches(fieldName, docs[..d + 1]) == DocumentsMatches(fieldName, docs[..d]) + DocumentMatches(fieldName, docs[d])
  {
    assert docs[..d + 1][..d] == docs[..d];
  }

  /** The inner `foreach` over one document's extracted entries: appends a
      suggestion for each entry whose key matches and whose value is not
      empty, numbering on from the counter. */
  method AppendEntrySuggestions(fieldName: string, docId: int, entries: seq<(string, Json)>,
                                suggestions: seq<Suggestion>, suggestionId: int,
                                ghost before: seq<Match>, lo: int, hi: int)
    returns (result: seq<Suggestion>, nextId: int)
    requires lo <= hi
    requires suggestionId == |suggestions| + 1
    requires Scored(suggestions, before, lo, hi)
    ensures nextId == |result| + 1
    ensures Scored(result, before + EntryMatches(fieldName, docId, entries), lo, hi)
    ensures |suggestions| <= |result| && result[..|suggestions|] == suggestions
  {
    result, nextId := suggestions, suggestionId;
    var e := 0;
    while e < |entries|
      invariant 0 <= e <= |entries|
      invariant nextId == |result| + 1
      invariant Scored(result, before + EntryMatches(fieldName, docId, entries[..e]), lo, hi)
      invariant |suggestions| <= |result| && result[..|suggestions|] == suggestions
    {
      var (key, value) := entries[e];
      ghost var done := before + EntryMatches(fieldName, docId, entries[..e]);
      EntryMatchesStep(fieldName, docId, entries, e);
      result, nextId := AppendEntrySuggestion(fieldName, docId, key, value, result, nextId, done, lo, hi);
      assert done + KeyMatch(fieldName, docId, key, value) == before + EntryMatches(fieldName, docId, entries[..e + 1]);
      e := e + 1;
    }
    assert entries[..e] == entries;
  }

  /** The profile part of `generateFieldSuggestions`: suggestion 1 carries
      the user's name or email when the field falls in that category. */
  method ProfileSuggestions(user: User, fieldName: string) returns (suggestions: seq<Suggestion>)
    ensures Scored(suggestions, ProfileMatches(user, fieldName), FormScoreLow, FormScoreHigh)
  {
    var category := MatchCategory(fieldName);
    if category == Some(Name) {
      suggestions := [Suggestion(1, fieldName, JString(user.name), ProfileConfidence, Profile, user.id)];
    } else if category == Some(Email) {
      suggestions := [Suggestion(1, fieldName, JString(user.email), ProfileConfidence, Profile, user.id)];
    } else {
      suggestions := [];
    }
  }

  /** One iteration of the outer `foreach`: a document without extracted
      data adds nothing, and one with data only appends. */
  method AppendDocumentSuggestion(fieldName: string, document: Document,
                                  suggestions: seq<Suggestion>, suggestionId: int, ghost before: seq<Match>)
    returns (result: seq<Suggestion>, nextId: int)
    requires suggestionId == |suggestions| + 1
    requires Scored(suggestions, before, FormScoreLow, FormScoreHigh)
    ensures nextId == |result| + 1
    ensures Scored(result, before + DocumentMatches(fieldName, document), FormScoreLow, FormScoreHigh)
    ensures |suggestions| <= |result| && result[..|suggestions|] == suggestions
    ensures !HasExtractedData(document) ==> result == suggestions
  {
    if HasExtractedData(document) {
      result, nextId := AppendEntrySuggestions(fieldName, document.id, document.extracted.value,
                                               suggestions, suggestionId, before, FormScoreLow, FormScoreHigh);
    } else {
      result, nextId := suggestions, suggestionId;
      assert before + DocumentMatches(fieldName, document) == before;
    }
  }

  /** The outer `foreach` over the documents, numbering on from the counter. */
  method AppendDocumentSuggestions(fieldName: string, documents: seq<Document>,
                                   suggestions: seq<Suggestion>, suggestionId: int, ghost before: seq<Match>)
    returns (result: seq<Suggestion>)
    requires suggestionId == |suggestions| + 1
    requires Scored(suggestions, before, FormScoreLow, FormScoreHigh)
    ensures Scored(result, before + DocumentsMatches(fieldName, documents), FormScoreLow, FormScoreHigh)
    ensures |suggestions| <= |result| && result[..|suggestions|] == suggestions
  {
    result := suggestions;
    var nextId := suggestionId;
    var d := 0;
    while d < |documents|
      invariant 0 <= d <= |documents|
      invariant nextId == |result| + 1
      invariant Scored(result, before + DocumentsMatches(fieldName, documents[..d]), FormScoreLow, FormScoreHigh)
      invariant |suggestions| <= |result| && result[..|suggestions|] == suggestions
    {
      DocumentsMatchesStep(fieldName, documents, d);
      ghost var done := before + DocumentsMatches(fieldName, documents[..d]);
      result, nextId := AppendDocumentSuggestion(fieldName, documents[d], result, nextId, done);
      assert done + DocumentMatches(fieldName, documents[d]) == before + DocumentsMatches(fieldName, documents[..d + 1]);
      d := d + 1;
    }
    assert documents[..d] == documents;
  }

  /** `generateFieldSuggestions`: the suggestions for one form field, ids
      1..n in the order of FieldMatches, profile score 95, document scores in
      [75, 90].  The field's current value is never read, so the model does
      not take it. */
  method GenerateFieldSuggestions(user: User, documents: seq<Document>, fieldName: string)
    returns (suggestions: seq<Suggestion>)
    ensures Scored(suggestions, FieldMatches(user, documents, fieldName), FormScoreLow, FormScoreHigh)
  {
    var profile := ProfileSuggestions(user, fieldName);
    suggestions := AppendDocumentSuggestions(fieldName, documents, profile, |profile| + 1, ProfileMatches(user, fieldName));
  }

  // ---------------------------------------------------------------------
  // getFormSuggestions
  // ---------------------------------------------------------------------

  /** The Eloquent query of `getFormSuggestions`: this user's documents whose
      processing status is "completed", in stored order. */
  predicate IsFetched(user: User, d: Document) {
    d.userId == user.id && d.status == "completed"
  }

  function CompletedDocuments(user: User, stored: seq<Document>): (docs: seq<Document>)
    ensures |docs| <= |stored|
    ensures forall d :: d in docs <==> d in stored && IsFetched(user, d)
  {
    if stored == [] then []
    else
      var last := stored[|stored| - 1];
      CompletedDocuments(user, stored[..|stored| - 1]) + (if IsFetched(user, last) then [last] else [])
  }

  lemma {:induction false} CompletedDocumentsAppend(user: User, a: seq<Document>, b: seq<Document>)
    ensures CompletedDocuments(user, a + b) == CompletedDocuments(user, a) + CompletedDocuments(user, b)
    decreases |b|
  {
    if b == [] {
      assert a + b == a;
    } else {
      var init := b[..|b| - 1];
      assert (a + b)[..|a + b| - 1] == a + init;
      CompletedDocumentsAppend(user, a, init);
    }
  }

  /** A document that is not completed never influences the suggestions. */
  lemma NonCompletedDocumentIgnored(user: User, a: seq<Document>, d: Document, b: seq<Document>, fieldName: string)
    requires d.status != "completed"
    ensures FieldMatches(user, CompletedDocuments(user, a + [d] + b), fieldName)
            == FieldMatches(user, CompletedDocuments(user, a + b), fieldName)
  {
    CompletedDocumentsAppend(user, a + [d], b);
    CompletedDocumentsAppend(user, a, [d]);
    CompletedDocumentsAppend(user, a, b);
    assert [d][..0] == [];
    assert CompletedDocuments(user, [d]) == [];
    assert CompletedDocuments(user, a + [d]) == CompletedDocuments(user, a);
  }

  /** Every document suggestion cites a completed document of this user. */
  lemma DocumentMatchCitesFetchedDocument(user: User, stored: seq<Document>, fieldName: string, m: Match)
    requires m in FieldMatches(user, CompletedDocuments(user, stored), fieldName)
    requires m.source == DocumentSource
    ensures exists d :: d in stored && IsFetched(user, d) && d.id == m.sourceId && HasExtractedData(d)
  {
    var docs := CompletedDocuments(user, stored);
    assert m !in ProfileMatches(user, fieldName);
    DocumentMatchIff(fieldName, docs, m);
    var i, j :| 0 <= i < |docs| && HasExtractedData(docs[i]) && 0 <= j < |docs[i].extracted.value|
                && m == Match(fieldName, docs[i].extracted.value[j].1, DocumentSource, docs[i].id);
    assert docs[i] in docs;
  }

  function Flatten<T>(blocks: seq<seq<T>>): seq<T> {
    if blocks == [] then [] else Flatten(blocks[..|blocks| - 1]) + blocks[|blocks| - 1]
  }

  lemma {:induction false} FlattenMember<T>(blocks: seq<seq<T>>, x: T)
    requires x in Flatten(blocks)
    ensures exists i :: 0 <= i < |blocks| && x in blocks[i]
  {
    var init := blocks[..|blocks| - 1];
    if x !in blocks[|blocks| - 1] {
      FlattenMember(init, x);
      var i :| 0 <= i < |init| && x in init[i];
      assert blocks[i] == init[i];
    }
  }

  /** The merged list of `getFormSuggestions` restarts its ids at 1 for
      every field, so two non-empty fields give two suggestions with id 1. */
  lemma IdsRepeatAcrossFields(b0: seq<Suggestion>, m0: seq<Match>, b1: seq<Suggestion>, m1: seq<Match>, lo: int, hi: int)
    requires Scored(b0, m0, lo, hi) && Scored(b1, m1, lo, hi)
    requires m0 != [] && m1 != []
    ensures var f := Flatten([b0, b1]); |f| == |b0| + |b1| && f[0].id == 1 && f[|b0|].id == 1
  {
    assert [b0, b1][..1] == [b0];
    assert [b0][..0] == [];
    assert Flatten([b0]) == b0;
    assert Flatten([b0, b1]) == b0 + b1;
  }

  /** The form data as the request delivers it: ordered keys, each value a
      string or null. */
  type FormData = seq<(string, Option<string>)>

  /** The per-field match lists of a form, in key order. */
  function FormMatchLists(user: User, docs: seq<Document>, formData: FormData): (lists: seq<seq<Match>>)
    ensures |lists| == |formData|
  {
    seq(|formData|, j requires 0 <= j < |formData| => FieldMatches(user, docs, formData[j].0))
  }

  /** `blocks[j]` is the scored list for `lists[j]`, for each block so far. */
  ghost predicate BlocksScored(blocks: seq<seq<Suggestion>>, lists: seq<seq<Match>>, lo: int, hi: int) {
    && |blocks| <= |lists|
    && forall j :: 0 <= j < |blocks| ==> Scored(blocks[j], lists[j], lo, hi)
  }

  lemma BlocksScoredAppend(blocks: seq<seq<Suggestion>>, lists: seq<seq<Match>>, b: seq<Suggestion>, lo: int, hi: int)
    requires BlocksScored(blocks, lists, lo, hi) && |blocks| < |lists|
    requires Scored(b, lists[|blocks|], lo, hi)
    ensures BlocksScored(blocks + [b], lists, lo, hi)
  {
    var next := blocks + [b];
    forall j | 0 <= j < |next|
      ensures Scored(next[j], lists[j], lo, hi)
    {
      if j < |blocks| {
        assert next[j] == blocks[j];
      }
    }
  }

  lemma FlattenAppend<T>(blocks: seq<seq<T>>, b: seq<T>)
    ensures Flatten(blocks + [b]) == Flatten(blocks) + b
  {
    assert (blocks + [b])[..|blocks|] == blocks;
  }

  /** One iteration of the `foreach` over the form data: the field's list is
      appended to the merged list. */
  method AppendFieldBlock(user: User, documents: seq<Document>, formData: FormData, fieldName: string,
                          suggestions: seq<Suggestion>, ghost blocks: seq<seq<Suggestion>>)
    returns (result: seq<Suggestion>, ghost blocksAfter: seq<seq<Suggestion>>)
    requires |blocks| < |formData| && formData[|blocks|].0 == fieldName
    requires suggestions == Flatten(blocks)
    requires BlocksScored(blocks, FormMatchLists(user, documents, formData), FormScoreLow, FormScoreHigh)
    ensures |blocksAfter| == |blocks| + 1 && blocksAfter[..|blocks|] == blocks
    ensures result == Flatten(blocksAfter)
    ensures BlocksScored(blocksAfter, FormMatchLists(user, documents, formData), FormScoreLow, FormScoreHigh)
  {
    ghost var lists := FormMatchLists(user, documents, formData);
    var fieldSuggestions := GenerateFieldSuggestions(user, documents, fieldName);
    BlocksScoredAppend(blocks, lists, fieldSuggestions, FormScoreLow, FormScoreHigh);
    FlattenAppend(blocks, fieldSuggestions);
    result := suggestions + fieldSuggestions;
    blocksAfter := blocks + [fieldSuggestions];
  }

  /** `getFormSuggestions`: the concatenation, in form-data key order, of the
      per-field lists computed over this user's completed documents; every
      suggestion names a key of the form data. */
  method GetFormSuggestions(user: User, stored: seq<Document>, formData: FormData)
    returns (suggestions: seq<Suggestion>, ghost blocks: seq<seq<Suggestion>>)
    ensures |blocks| == |formData|
    ensures suggestions == Flatten(blocks)
    ensures forall i :: 0 <= i < |formData| ==>
              Scored(blocks[i], FieldMatches(user, CompletedDocuments(user, stored), formData[i].0), FormScoreLow, FormScoreHigh)
    ensures forall s :: s in suggestions ==> exists i :: 0 <= i < |formData| && s.fieldName == formData[i].0
  {
    var documents := CompletedDocuments(user, stored);
    ghost var lists := FormMatchLists(user, documents, formData);
    suggestions, blocks := [], [];
    var i := 0;
    while i < |formData|
      invariant 0 <= i <= |formData|
      invariant |blocks| == i
      invariant suggestions == Flatten(blocks)
      invariant BlocksScored(blocks, lists, FormScoreLow, FormScoreHigh)
    {
      var fieldName := formData[i].0;
      suggestions, blocks := AppendFieldBlock(user, documents, formData, fieldName, suggestions, blocks);
      i := i + 1;
    }
    BlocksNameTheirFields(user, documents, formData, blocks, FormScoreLow, FormScoreHigh);
  }

  lemma BlocksNameTheirFields(user: User, docs: seq<Document>, formData: FormData, blocks: seq<seq<Suggestion>>, lo: int, hi: int)
    requires |blocks| == |formData|
    requires BlocksScored(blocks, FormMatchLists(user, docs, formData), lo, hi)
    ensures forall s :: s in Flatten(blocks) ==> exists i :: 0 <= i < |formData| && s.fieldName == formData[i].0
  {
    forall s | s in Flatten(blocks)
      ensures exists i :: 0 <= i < |formData| && s.fieldName == formData[i].0
    {
      FlattenMember(blocks, s);
      var i :| 0 <= i < |blocks| && s in blocks[i];
      var k :| 0 <= k < |blocks[i]| && blocks[i][k] == s;
      var ms := FieldMatches(user, docs, formData[i].0);
      FieldMatchesNameTheField(user, docs, formData[i].0);
      assert ms[k] in ms;
    }
  }

  // ---------------------------------------------------------------------
  // getFormSuggestions as written: a null form value is a TypeError
  // ---------------------------------------------------------------------

  /** The request rules of FormSuggestionsRequest: `form_data` is a non-empty
      array, each value null or a string of at most 1024 characters. */
  predicate PassesRequestRules(formData: FormData) {
    && |formData| > 0
    && forall i :: 0 <= i < |formData| ==> formData[i].1.None? || |formData[i].1.value| <= 1024
  }

  /** `generateFieldSuggestions` declares its current value as `string`, so
      only string values get past its signature. */
  predicate AllValuesAreStrings(formData: FormData) {
    forall i :: 0 <= i < |formData| ==> formData[i].1.Some?
  }

  datatype FormOutcome = Suggested(suggestions: seq<Suggestion>) | TypeError(fieldName: string)

  /** The service as written: the first key whose value is null raises a
      TypeError and discards the list built so far; otherwise the result is
      that of GetFormSuggestions. */
  method GetFormSuggestionsAsWritten(user: User, stored: seq<Document>, formData: FormData)
    returns (outcome: FormOutcome, ghost blocks: seq<seq<Suggestion>>)
    ensures outcome.TypeError? <==> !AllValuesAreStrings(formData)
    ensures outcome.TypeError? ==>
              exists i :: 0 <= i < |formData| && formData[i] == (outcome.fieldName, None)
                          && forall j :: 0 <= j < i ==> formData[j].1.Some?
    ensures outcome.Suggested? ==>
              && |blocks| == |formData|
              && outcome.suggestions == Flatten(blocks)
              && BlocksScored(blocks, FormMatchLists(user, CompletedDocuments(user, stored), formData), FormScoreLow, FormScoreHigh)
  {
    var documents := CompletedDocuments(user, stored);
    ghost var lists := FormMatchLists(user, documents, formData);
    var suggestions := [];
    blocks := [];
    var i := 0;
    while i < |formData|
      invariant 0 <= i <= |formData|
      invariant |blocks| == i
      invariant forall j :: 0 <= j < i ==> formData[j].1.Some?
      invariant suggestions == Flatten(blocks)
      invariant BlocksScored(blocks, lists, FormScoreLow, FormScoreHigh)
    {
      var (fieldName, currentValue) := formData[i];
      if currentValue.None? {
        assert formData[i] == (fieldName, None);
        return TypeError(fieldName), blocks;
      }
      assert forall j :: 0 <= j < i + 1 ==> formData[j].1.Some?;
      suggestions, blocks := AppendFieldBlock(user, documents, formData, fieldName, suggestions, blocks);
      i := i + 1;
    }
    outcome := Suggested(suggestions);
  }

  /** The request rules let a null value through, and the service as
      written then fails: `{"email": null}` is such a request. */
  lemma NullValuePassesRulesButFailsAsWritten()
    ensures PassesRequestRules([("email", None)])
    ensures !AllValuesAreStrings([("email", None)])
  {
    var formData: FormData := [("email", None)];
    assert formData[0].1.None?;
  }

  // ---------------------------------------------------------------------
  // getDocumentSuggestions
  // ---------------------------------------------------------------------

  /** The Eloquent query of `getDocumentSuggestions`: the first stored
      document with this id that belongs to the user and is completed. */
  function FindDocument(user: User, stored: seq<Document>, documentId: int): (r: Option<Document>)
    ensures r.Some? ==> r.value in stored && r.value.id == documentId && IsFetched(user, r.value)
    ensures r.None? <==> forall d :: d in stored ==> !(d.id == documentId && IsFetched(user, d))
  {
    if stored == [] then None
    else if stored[0].id == documentId && IsFetched(user, stored[0]) then Some(stored[0])
    else FindDocument(user, stored[1..], documentId)
  }

  /** Field-major, key-minor matches of one document. */
  function FieldsDocumentMatches(formFields: seq<string>, d: Document): seq<Match> {
    if formFields == [] then []
    else FieldsDocumentMatches(formFields[..|formFields| - 1], d) + DocumentMatches(formFields[|formFields| - 1], d)
  }

  /** `getDocumentSuggestions`: nothing when the document is not found or has
      no extracted data; otherwise the field-major, key-minor matches of
      that document, numbered 1..n across the whole call, scored in [80, 95]. */
  method GetDocumentSuggestions(user: User, stored: seq<Document>, documentId: int, formFields: seq<string>)
    returns (suggestions: seq<Suggestion>)
    ensures FindDocument(user, stored, documentId).None? ==> suggestions == []
    ensures FindDocument(user, stored, documentId).Some? && !HasExtractedData(FindDocument(user, stored, documentId).value)
            ==> suggestions == []
    ensures FindDocument(user, stored, documentId).Some? ==>
              Scored(suggestions, FieldsDocumentMatches(formFields, FindDocument(user, stored, documentId).value),
                     DocumentScoreLow, DocumentScoreHigh)
  {
    var found := FindDocument(user, stored, documentId);
    if found.None? || !HasExtractedData(found.value) {
      FieldsWithoutDataMatchNothing(formFields, if found.Some? then found.value else Document(0, 0, "", None));
      return [];
    }
    var document := found.value;
    suggestions := [];
    var suggestionId := 1;
    var f := 0;
    while f < |formFields|
      invariant 0 <= f <= |formFields|
      invariant suggestionId == |suggestions| + 1
      invariant Scored(suggestions, FieldsDocumentMatches(formFields[..f], document), DocumentScoreLow, DocumentScoreHigh)
    {
      var fieldName := formFields[f];
      assert formFields[..f + 1][..f] == formFields[..f];
      suggestions, suggestionId := AppendEntrySuggestions(fieldName, document.id, document.extracted.value,
                                                          suggestions, suggestionId,
                                                          FieldsDocumentMatches(formFields[..f], document),
                                                          DocumentScoreLow, DocumentScoreHigh);
      f := f + 1;
    }
    assert formFields[..f] == formFields;
  }

  lemma {:induction false} FieldsWithoutDataMatchNothing(formFields: seq<string>, d: Document)
    requires !HasExtractedData(d)
    ensures FieldsDocumentMatches(formFields, d) == []
  {
    if formFields != [] {
      FieldsWithoutDataMatchNothing(formFields[..|formFields| - 1], d);
    }
  }

  /** Every suggestion of `getDocumentSuggestions` cites the requested document. */
  lemma {:induction false} FieldsDocumentMatchesCiteDocument(formFields: seq<string>, d: Document, m: Match)
    requires m in FieldsDocumentMatches(formFields, d)
    ensures m.source == DocumentSource && m.sourceId == d.id && m.fieldName in formFields
  {
    var init := formFields[..|formFields| - 1];
    var last := formFields[|formFields| - 1];
    if m in FieldsDocumentMatches(init, d) {
      FieldsDocumentMatchesCiteDocument(init, d, m);
      assert forall x :: x in init ==> x in formFields;
    } else {
      DocumentMatchIff(last, [d], m);
    }
  }

  // ---------------------------------------------------------------------
  // Worked cases
  // ---------------------------------------------------------------------

  lemma PatternMissed(lowered: string, pattern: string, c: char, back: char)
    requires c in pattern && c !in lowered
    requires back in lowered && back !in pattern
    ensures !PatternHits(lowered, pattern)
  {
    MissingCharNotContained(lowered, pattern, c);
    MissingCharNotContained(pattern, lowered, back);
  }

  predicate SnakeChar(c: char) {
    'a' <= c <= 'z' || c == '_'
  }

  /** Every synonym of row `k` is written in lower-case snake case. */
  ghost predicate RowSnakeCase(k: nat)
    requires k < |Mappings|
  {
    forall q, i :: 0 <= q < |Mappings[k].1| && 0 <= i < |Mappings[k].1[q]| ==> SnakeChar(Mappings[k].1[q][i])
  }

  lemma NameAndEmailRowsSnakeCase()
    ensures RowSnakeCase(0) && RowSnakeCase(1)
  {
  }

  lemma PhoneAndAddressRowsSnakeCase()
    ensures RowSnakeCase(2) && RowSnakeCase(3)
  {
  }

  lemma CityAndZipRowsSnakeCase()
    ensures RowSnakeCase(4) && RowSnakeCase(5)
  {
  }

  lemma CountryAndBirthRowsSnakeCase()
    ensures RowSnakeCase(6) && RowSnakeCase(7)
  {
  }

  lemma SsnRowSnakeCase()
    ensures RowSnakeCase(8)
  {
  }

  /** The whole table is in lower-case snake case, so no synonym holds a
      space, a hyphen or an upper-case letter. */
  lemma TableIsSnakeCase()
    ensures forall k :: 0 <= k < |Mappings| ==> RowSnakeCase(k)
  {
    NameAndEmailRowsSnakeCase();
    PhoneAndAddressRowsSnakeCase();
    CityAndZipRowsSnakeCase();
    CountryAndBirthRowsSnakeCase();
    SsnRowSnakeCase();
  }

  /** Pattern `q` of `ps` holds, at offset `at[q]`, a character outside `alphabet`. */
  predicate RowOutside(ps: seq<string>, at: seq<nat>, alphabet: set<char>) {
    |ps| == |at| && forall q :: 0 <= q < |ps| ==> at[q] < |ps[q]| && ps[q][at[q]] !in alphabet
  }

  /** A lowered name written in `alphabet` and holding a character that is not
      snake case is not hit by row `k` when every pattern of that row holds a
      character outside `alphabet`: the scan moves on to the next row. */
  lemma RowMissed(lowered: string, k: nat, at: seq<nat>, alphabet: set<char>, c: char)
    requires k < |Mappings| && RowOutside(Mappings[k].1, at, alphabet)
    requires forall i :: 0 <= i < |lowered| ==> lowered[i] in alphabet
    requires c in lowered && !SnakeChar(c)
    ensures !CategoryHits(lowered, k)
  {
    TableIsSnakeCase();
    assert RowSnakeCase(k);
    var ps := Mappings[k].1;
    forall q | 0 <= q < |ps|
      ensures !PatternHits(lowered, ps[q])
    {
      assert ps[q][at[q]] in ps[q];
      PatternMissed(lowered, ps[q], ps[q][at[q]], c);
    }
    assert !CategoryHits(lowered, k);
  }

  /** The characters of "email address". */
  const EmailAddressLetters: set<char> := {'e', 'm', 'a', 'i', 'l', 'd', 'r', 's', ' '}

  lemma EmailAddressLettersMissRowsToPhone()
    ensures RowOutside(Mappings[0].1, [0, 0, 3, 0], EmailAddressLetters)
    ensures RowOutside(Mappings[1].1, [5, 0, 0], EmailAddressLetters)
    ensures RowOutside(Mappings[2].1, [0, 1, 0, 0], EmailAddressLetters)
  {
  }

  lemma EmailAddressLettersMissAddressAndCity()
    ensures RowOutside(Mappings[3].1, [1, 0, 0], EmailAddressLetters)
    ensures RowOutside(Mappings[4].1, [0, 1, 1], EmailAddressLetters)
  {
  }

  lemma EmailAddressLettersMissZipAndCountry()
    ensures RowOutside(Mappings[5].1, [0, 0, 0], EmailAddressLetters)
    ensures RowOutside(Mappings[6].1, [0, 0], EmailAddressLetters)
  {
  }

  lemma EmailAddressLettersMissBirthAndSsn()
    ensures RowOutside(Mappings[7].1, [0, 1, 0], EmailAddressLetters)
    ensures RowOutside(Mappings[8].1, [1, 0, 0], EmailAddressLetters)
  {
  }

  lemma {:induction false} EmailAddressMissesRowsToCity(lowered: string)
    requires ' ' in lowered
    requires forall i :: 0 <= i < |lowered| ==> lowered[i] in EmailAddressLetters
    ensures FirstHit(lowered, 0) == FirstHit(lowered, 5)
  {
    EmailAddressLettersMissRowsToPhone();
    EmailAddressLettersMissAddressAndCity();
    RowMissed(lowered, 0, [0, 0, 3, 0], EmailAddressLetters, ' ');
    RowMissed(lowered, 1, [5, 0, 0], EmailAddressLetters, ' ');
    RowMissed(lowered, 2, [0, 1, 0, 0], EmailAddressLetters, ' ');
    RowMissed(lowered, 3, [1, 0, 0], EmailAddressLetters, ' ');
    RowMissed(lowered, 4, [0, 1, 1], EmailAddressLetters, ' ');
    SkipMissedRows(lowered, 0, 5);
  }

  lemma {:induction false} EmailAddressMissesRowsFromZip(lowered: string)
    requires ' ' in lowered
    requires forall i :: 0 <= i < |lowered| ==> lowered[i] in EmailAddressLetters
    ensures FirstHit(lowered, 5) == None
  {
    EmailAddressLettersMissZipAndCountry();
    EmailAddressLettersMissBirthAndSsn();
    RowMissed(lowered, 5, [0, 0, 0], EmailAddressLetters, ' ');
    RowMissed(lowered, 6, [0, 0], EmailAddressLetters, ' ');
    RowMissed(lowered, 7, [0, 1, 0], EmailAddressLetters, ' ');
    RowMissed(lowered, 8, [1, 0, 0], EmailAddressLetters, ' ');
    SkipMissedRows(lowered, 5, |Mappings|);
  }

  /** Every character of `s` is in `alphabet`, one position at a time. */
  predicate WrittenIn(s: string, alphabet: set<char>) {
    s == [] || (s[0] in alphabet && WrittenIn(s[1..], alphabet))
  }

  lemma {:induction false} WrittenInEach(s: string, alphabet: set<char>)
    requires WrittenIn(s, alphabet)
    ensures forall i :: 0 <= i < |s| ==> s[i] in alphabet
  {
    if s != [] {
      WrittenInEach(s[1..], alphabet);
      assert forall i :: 1 <= i < |s| ==> s[i] == s[1..][i - 1];
    }
  }

  lemma {:induction false} EachWrittenIn(s: string, alphabet: set<char>)
    requires forall i :: 0 <= i < |s| ==> s[i] in alphabet
    ensures WrittenIn(s, alphabet)
  {
    if s != [] {
      assert forall i :: 0 <= i < |s[1..]| ==> s[1..][i] == s[i + 1];
      EachWrittenIn(s[1..], alphabet);
    }
  }

  lemma EmailAddressSpelling(l: string)
    requires l == "email address"
    ensures WrittenIn(l, EmailAddressLetters) && l[5] == ' '
  {
    assert forall i :: 0 <= i < |l| ==> l[i] in EmailAddressLetters;
    EachWrittenIn(l, EmailAddressLetters);
  }

  /** A lowered name holding a space and only the letters of "email address"
      hits no row of the table. */
  lemma EmailAddressHitsNoRow(lowered: string)
    requires ' ' in lowered
    requires WrittenIn(lowered, EmailAddressLetters)
    ensures FirstHit(lowered, 0) == None
  {
    WrittenInEach(lowered, EmailAddressLetters);
    EmailAddressMissesRowsToCity(lowered);
    EmailAddressMissesRowsFromZip(lowered);
  }

  lemma LowerEmailAddress()
    ensures ToLower("Email Address") == "email address"
  {
    var s := "Email Address";
    assert LowerChar(s[0]) == 'e' && LowerChar(s[6]) == 'a';
  }

  /** The category scan lower-cases but keeps separators, so a field whose
      lower-case form is "email address" falls in no category and gets no
      profile suggestion. */
  lemma SpacedEmailAddressMatchesNoCategory(user: User, docs: seq<Document>, fieldName: string)
    requires ToLower(fieldName) == "email address"
    ensures CategoryOf(fieldName) == None
    ensures FieldMatches(user, docs, fieldName) == DocumentsMatches(fieldName, docs)
  {
    var lowered := ToLower(fieldName);
    EmailAddressSpelling(lowered);
    EmailAddressHitsNoRow(lowered);
  }

  /** "Email Address" itself, as a form would label the field. */
  lemma EmailAddressMatchesNoCategory(user: User, docs: seq<Document>)
    ensures CategoryOf("Email Address") == None
    ensures FieldMatches(user, docs, "Email Address") == DocumentsMatches("Email Address", docs)
  {
    LowerEmailAddress();
    SpacedEmailAddressMatchesNoCategory(user, docs, "Email Address");
  }

  /** "email" misses the name row and hits the email row through "email_address". */
  lemma EmailMissesNameRow(l: string)
    requires |l| == 5 && l[0] == 'e' && l[1] == 'm' && l[2] == 'a' && l[3] == 'i' && l[4] == 'l'
    ensures !CategoryHits(l, 0)
  {
    var ps := Mappings[0].1;
    assert ps == ["full_name", "first_name", "last_name", "customer_name"];
    forall q | 0 <= q < |ps|
      ensures !PatternHits(l, ps[q])
    {
      assert |ps[q]| > |l|;
      assert l[3] !in ps[q] || l[4] !in ps[q];
      if l[3] !in ps[q] {
        MissingCharNotContained(ps[q], l, l[3]);
      } else {
        MissingCharNotContained(ps[q], l, l[4]);
      }
    }
  }

  /** "email" misses the name row and hits the email row through "email_address". */
  lemma EmailHitsEmailRow(l: string)
    requires l == "email"
    ensures FirstHit(l, 0) == Some(Email)
  {
    EmailMissesNameRow(l);
    EmailHitsEmailAddressPattern(l);
    MissThenHit(l, 0);
  }

  lemma EmailHitsEmailAddressPattern(l: string)
    requires |l| == 5 && l[0] == 'e' && l[1] == 'm' && l[2] == 'a' && l[3] == 'i' && l[4] == 'l'
    ensures CategoryHits(l, 1)
  {
    var p := Mappings[1].1[0];
    assert p[..|l|] == l;
    assert PatternHits(l, p);
    assert p in Mappings[1].1;
  }

  /** The field "email" is in the email category: one profile suggestion
      carrying the user's email comes first. */
  lemma EmailFieldGetsProfileEmail(user: User, docs: seq<Document>)
    ensures CategoryOf("email") == Some(Email)
    ensures FieldMatches(user, docs, "email")[0] == Match("email", JString(user.email), Profile, user.id)
  {
    LowerKeepsLowercase("email");
    EmailHitsEmailRow("email");
  }

  /** A document whose extracted data is the single non-empty entry `key`
      gives exactly one document suggestion for the field `key`. */
  lemma SingleEntryDocument(d: Document, key: string, v: Json)
    requires d.extracted == Some([(key, v)]) && !IsEmpty(v)
    ensures FieldsDocumentMatches([key], d) == [Match(key, v, DocumentSource, d.id)]
  {
    var entries := d.extracted.value;
    var m := Match(key, v, DocumentSource, d.id);
    FieldMatchReflexive(key);
    assert entries[..0] == [];
    assert EntryMatches(key, d.id, entries) == [m];
    assert DocumentMatches(key, d) == [m];
    assert [key][..0] == [];
  }

}
