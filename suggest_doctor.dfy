/**
 * app/api/suggest-doctor/route.tsx: the keyword matcher that suggests up to
 * three specialists for free-text notes, and the POST envelope around it.
 */
module SuggestDoctor {
  import opened Wrappers
  import opened JsonData
  import opened Text
  import opened Http

  /** The specialists the matcher can suggest. */
  datatype Specialist =
    | Dermatologist | Cardiologist | Pediatrician | Psychologist | EntSpecialist
    | Orthopedic | Nutritionist | Dentist | Gynecologist | GeneralPhysician

  /** The `specialist` text of a suggestion. */
  function Title(sp: Specialist): string {
    match sp
    case Dermatologist => "Dermatologist"
    case Cardiologist => "Cardiologist"
    case Pediatrician => "Pediatrician"
    case Psychologist => "Psychologist"
    case EntSpecialist => "ENT Specialist"
    case Orthopedic => "Orthopedic"
    case Nutritionist => "Nutritionist"
    case Dentist => "Dentist"
    case Gynecologist => "Gynecologist"
    case GeneralPhysician => "General Physician"
  }

  /** The fixed `reason` text that goes with each specialist. */
  function Reason(sp: Specialist): string {
    match sp
    case Dermatologist => "Handles skin-related issues"
    case Cardiologist => "Specializes in heart and cardiovascular health"
    case Pediatrician => "Expert in children's health"
    case Psychologist => "Supports mental health and emotional well-being"
    case EntSpecialist => "Handles ear, nose, and throat problems"
    case Orthopedic => "Helps with bone, joint, and muscle issues"
    case Nutritionist => "Provides advice on healthy eating and nutrition"
    case Dentist => "Handles oral hygiene and dental problems"
    case Gynecologist => "Cares for women's reproductive health"
    case GeneralPhysician => "Can help with general health concerns"
  }

  /** The suggestion object `{ specialist, reason }` sent to the client. */
  function Encode(sp: Specialist): (j: Json)
    ensures Field(j, "specialist") == Some(JStr(Title(sp)))
    ensures Field(j, "reason") == Some(JStr(Reason(sp)))
  {
    var members := [("specialist", JStr(Title(sp))), ("reason", JStr(Reason(sp)))];
    LookupUnique(members, 0);
    JObj(members)
  }

  /** The `content` array: one suggestion object per specialist, in order. */
  function EncodeAll(sps: seq<Specialist>): (j: Json)
    ensures j.JArr? && |j.items| == |sps|
    ensures forall i :: 0 <= i < |sps| ==> j.items[i] == Encode(sps[i])
  {
    JArr(seq(|sps|, i requires 0 <= i < |sps| => Encode(sps[i])))
  }

  /** A keyword group and the specialist it suggests. */
  datatype Rule = Rule(keywords: seq<string>, specialist: Specialist)

  /** The keyword groups; `includes` is checked for each word of a group. */
  const SkinWords: seq<string> := ["skin", "rash", "acne"]
  const HeartWords: seq<string> := ["heart", "chest", "blood pressure"]
  const ChildWords: seq<string> := ["child", "baby", "pediatric"]
  const MindWords: seq<string> := ["mental", "anxiety", "depression", "stress"]
  const EntWords: seq<string> := ["ear", "nose", "throat", "sinus"]
  const BoneWords: seq<string> := ["bone", "joint", "muscle", "pain"]
  const DietWords: seq<string> := ["diet", "weight", "nutrition", "eating"]
  const DentalWords: seq<string> := ["tooth", "dental", "gum", "mouth"]
  const WomenWords: seq<string> := ["women", "reproductive", "hormonal", "gynec"]

  /** The nine groups, in the order the handler tests them. */
  const Rules: seq<Rule> := [
    Rule(SkinWords, Dermatologist),
    Rule(HeartWords, Cardiologist),
    Rule(ChildWords, Pediatrician),
    Rule(MindWords, Psychologist),
    Rule(EntWords, EntSpecialist),
    Rule(BoneWords, Orthopedic),
    Rule(DietWords, Nutritionist),
    Rule(DentalWords, Dentist),
    Rule(WomenWords, Gynecologist)
  ]

  const MaxSuggestions := 3

  /** The table entry by entry. */
  lemma RulesTable()
    ensures |Rules| == 9
    ensures Rules[0] == Rule(SkinWords, Dermatologist) && Rules[1] == Rule(HeartWords, Cardiologist)
    ensures Rules[2] == Rule(ChildWords, Pediatrician) && Rules[3] == Rule(MindWords, Psychologist)
    ensures Rules[4] == Rule(EntWords, EntSpecialist) && Rules[5] == Rule(BoneWords, Orthopedic)
    ensures Rules[6] == Rule(DietWords, Nutritionist) && Rules[7] == Rule(DentalWords, Dentist)
    ensures Rules[8] == Rule(WomenWords, Gynecologist)
  {
  }

  predicate Fires(rule: Rule, symptoms: string) {
    ContainsAny(symptoms, rule.keywords)
  }

  /**
   * The specialists pushed after testing the first n groups of `rules`:
   * each group's specialist, in group order, when one of its words occurs.
   */
  function MatchesUpTo(rules: seq<Rule>, symptoms: string, n: nat): seq<Specialist>
    requires n <= |rules|
  {
    if n == 0 then []
    else MatchesUpTo(rules, symptoms, n - 1)
         + (if Fires(rules[n - 1], symptoms) then [rules[n - 1].specialist] else [])
  }

  /** Every matching specialist for the notes, before the fallback and the cut to three. */
  function AllMatches(notes: string): seq<Specialist> {
    MatchesUpTo(Rules, Lower(notes), |Rules|)
  }

  function Min(a: int, b: int): int { if a <= b then a else b }

  /**
   * What getFallbackSuggestions returns: the matches cut to three, or
   * General Physician alone when nothing matched.
   */
  function Suggestions(notes: string): seq<Specialist> {
    var m := AllMatches(notes);
    if |m| == 0 then [GeneralPhysician] else m[..Min(|m|, MaxSuggestions)]
  }

  /**
   * getFallbackSuggestions: lower-case the notes, push the specialist of
   * every keyword group that matches, fall back to General Physician, and
   * keep the first three.
   */
  method GetFallbackSuggestions(notes: string) returns (result: seq<Specialist>)
    ensures result == Suggestions(notes)
  {
    var symptoms := Lower(notes);
    var suggestions := MatchKeywordGroups(symptoms);
    if |suggestions| == 0 {
      suggestions := suggestions + [GeneralPhysician];
    }
    result := suggestions[..Min(|suggestions|, MaxSuggestions)];
  }

  /** Lines 8-43: the nine keyword tests, each pushing its specialist when it holds. */
  method MatchKeywordGroups(symptoms: string) returns (suggestions: seq<Specialist>)
    ensures suggestions == MatchesUpTo(Rules, symptoms, |Rules|)
  {
    RulesTable();
    suggestions := [];

    if ContainsAny(symptoms, SkinWords) {
      suggestions := suggestions + [Dermatologist];
    }
    assert suggestions == MatchesUpTo(Rules, symptoms, 1);
    if ContainsAny(symptoms, HeartWords) {
      suggestions := suggestions + [Cardiologist];
    }
    assert suggestions == MatchesUpTo(Rules, symptoms, 2);
    if ContainsAny(symptoms, ChildWords) {
      suggestions := suggestions + [Pediatrician];
    }
    assert suggestions == MatchesUpTo(Rules, symptoms, 3);
    if ContainsAny(symptoms, MindWords) {
      suggestions := suggestions + [Psychologist];
    }
    assert suggestions == MatchesUpTo(Rules, symptoms, 4);
    if ContainsAny(symptoms, EntWords) {
      suggestions := suggestions + [EntSpecialist];
    }
    assert suggestions == MatchesUpTo(Rules, symptoms, 5);
    if ContainsAny(symptoms, BoneWords) {
      suggestions := suggestions + [Orthopedic];
    }
    assert suggestions == MatchesUpTo(Rules, symptoms, 6);
    if ContainsAny(symptoms, DietWords) {
      suggestions := suggestions + [Nutritionist];
    }
    assert suggestions == MatchesUpTo(Rules, symptoms, 7);
    if ContainsAny(symptoms, DentalWords) {
      suggestions := suggestions + [Dentist];
    }
    assert suggestions == MatchesUpTo(Rules, symptoms, 8);
    if ContainsAny(symptoms, WomenWords) {
      suggestions := suggestions + [Gynecologist];
    }
    assert suggestions == MatchesUpTo(Rules, symptoms, 9);
  }

  /** Position of a specialist in the table; General Physician comes after all nine. */
  function Rank(sp: Specialist): (k: nat)
    ensures k <= |Rules|
  {
    match sp
    case Dermatologist => 0
    case Cardiologist => 1
    case Pediatrician => 2
    case Psychologist => 3
    case EntSpecialist => 4
    case Orthopedic => 5
    case Nutritionist => 6
    case Dentist => 7
    case Gynecologist => 8
    case GeneralPhysician => 9
  }

  /** Every group of the table suggests the specialist whose rank is its position. */
  lemma RulesRanked()
    ensures forall k :: 0 <= k < |Rules| ==> Rank(Rules[k].specialist) == k
    ensures forall sp :: sp != GeneralPhysician ==> Rules[Rank(sp)].specialist == sp
  {
  }

  /**
   * For a table whose k-th group suggests the specialist of rank k, the n
   * first groups push exactly the specialists of the groups that fire, in
   * strictly increasing rank (so in table order and without repetition).
   */
  lemma {:induction false} MatchesRanked(rules: seq<Rule>, symptoms: string, n: nat)
    requires n <= |rules|
    requires forall k :: 0 <= k < |rules| ==> Rank(rules[k].specialist) == k
    ensures var m := MatchesUpTo(rules, symptoms, n);
      && (forall i :: 0 <= i < |m| ==> Rank(m[i]) < n && rules[Rank(m[i])].specialist == m[i])
      && (forall i, j :: 0 <= i < j < |m| ==> Rank(m[i]) < Rank(m[j]))
      && (forall k :: 0 <= k < n ==> (rules[k].specialist in m <==> Fires(rules[k], symptoms)))
  {
    if n > 0 {
      MatchesRanked(rules, symptoms, n - 1);
      var before := MatchesUpTo(rules, symptoms, n - 1);
      var m := MatchesUpTo(rules, symptoms, n);
      forall k | 0 <= k < n
        ensures rules[k].specialist in m <==> Fires(rules[k], symptoms)
      {
        if k < n - 1 {
          assert Rank(rules[k].specialist) != Rank(rules[n - 1].specialist);
        } else {
          assert forall i :: 0 <= i < |before| ==> Rank(before[i]) != Rank(rules[k].specialist);
        }
      }
    }
  }

  /** The keyword rule that suggests a specialist of the table fires on the notes. */
  predicate Matched(notes: string, sp: Specialist) {
    Rank(sp) < |Rules| && Fires(Rules[Rank(sp)], Lower(notes))
  }

  /**
   * The shape of every answer: one to three suggestions, in table order
   * without repetition; General Physician is suggested exactly when no
   * group matched, and then alone; every other suggestion matched.
   */
  lemma SuggestionsShape(notes: string)
    ensures var r := Suggestions(notes);
      && 1 <= |r| <= MaxSuggestions
      && (forall i, j :: 0 <= i < j < |r| ==> Rank(r[i]) < Rank(r[j]) && r[i] != r[j])
      && (GeneralPhysician in r <==> forall sp :: !Matched(notes, sp))
      && (GeneralPhysician in r ==> r == [GeneralPhysician])
      && (forall i :: 0 <= i < |r| && r[i] != GeneralPhysician ==> Matched(notes, r[i]))
  {
    RulesRanked();
    MatchesRanked(Rules, Lower(notes), |Rules|);
    var m := AllMatches(notes);
    var r := Suggestions(notes);
    if |m| != 0 {
      assert Rank(m[0]) < |Rules|;
      assert Matched(notes, m[0]);
      assert forall i :: 0 <= i < |r| ==> r[i] == m[i];
    }
  }

  /** A specialist of the table is among all the matches exactly when its group fires. */
  lemma MatchedIff(notes: string, sp: Specialist)
    requires sp != GeneralPhysician
    ensures sp in AllMatches(notes) <==> Matched(notes, sp)
  {
    RulesRanked();
    MatchesRanked(Rules, Lower(notes), |Rules|);
  }

  /**
   * The cut to three keeps the earliest matches: as many suggestions as
   * matches up to three, every match kept when there are fewer than
   * three, and every matched specialist left out comes after all the kept
   * ones in the table.
   */
  lemma TruncationKeepsEarliest(notes: string)
    ensures var r := Suggestions(notes);
      && |r| == (if |AllMatches(notes)| == 0 then 1 else Min(|AllMatches(notes)|, MaxSuggestions))
      && (|AllMatches(notes)| < MaxSuggestions ==>
            forall sp :: sp != GeneralPhysician && Matched(notes, sp) ==> sp in r)
      && (forall sp :: sp != GeneralPhysician && Matched(notes, sp) && sp !in r ==>
            forall i :: 0 <= i < |r| ==> Rank(r[i]) < Rank(sp))
  {
    RulesRanked();
    MatchesRanked(Rules, Lower(notes), |Rules|);
    var m := AllMatches(notes);
    var r := Suggestions(notes);
    if |m| < MaxSuggestions {
      forall sp | sp != GeneralPhysician && Matched(notes, sp)
        ensures sp in r
      {
        MatchedIff(notes, sp);
        assert r == m;
      }
    }
    forall sp | sp != GeneralPhysician && Matched(notes, sp) && sp !in r
      ensures forall i :: 0 <= i < |r| ==> Rank(r[i]) < Rank(sp)
    {
      var j :| 0 <= j < |m| && m[j] == sp;
      assert forall i :: 0 <= i < |r| ==> r[i] == m[i];
    }
  }

  /** Matching ignores letter case: lower- or upper-casing the notes first changes nothing. */
  lemma CaseInsensitive(notes: string)
    ensures Suggestions(Lower(notes)) == Suggestions(notes)
    ensures Suggestions(Upper(notes)) == Suggestions(notes)
  {
    LowerIdempotent(notes);
    LowerUpper(notes);
  }

  /** Notes mentioning "heart" suggest a cardiologist and, through "ear", an ENT specialist. */
  lemma HeartAlsoMatchesEar(notes: string)
    requires Contains(Lower(notes), "heart")
    ensures Cardiologist in AllMatches(notes) && EntSpecialist in AllMatches(notes)
  {
    assert "ear" <= "heart"[1..];
    ContainsTransitive(Lower(notes), "heart", "ear");
    assert Fires(Rules[1], Lower(notes));
    assert Fires(Rules[4], Lower(notes));
    MatchedIff(notes, Cardiologist);
    MatchedIff(notes, EntSpecialist);
  }

  const FailureMessage := "Failed to generate doctor suggestions"

  /**
   * Message of the TypeError `notes.toLowerCase()` throws when `notes` is
   * not a string. The runtime's exact wording is not modelled.
   */
  const NotesNotText := "notes.toLowerCase is not a function"

  /** The notes text the handler works on, or the message of the error it throws first. */
  function NotesOf(req: Request): (r: Result<string, string>)
    ensures r.Success? <==> req.Body? && Field(req.json, "notes").Some? && Field(req.json, "notes").value.JStr?
    ensures r.Success? ==> Field(req.json, "notes") == Some(JStr(r.value))
  {
    match ReadBody(req)
    case Failure(m) => Failure(m)
    case Success(body) =>
      match Field(body, "notes")
      case Some(JStr(notes)) => Success(notes)
      case _ => Failure(NotesNotText)
  }

  /**
   * POST /api/suggest-doctor: 200 with `{ content: suggestions }` for
   * text notes; any thrown error gives 500 with an empty `content`, the
   * fixed error text and the error's message as `details`.
   */
  method Post(req: Request) returns (resp: Response)
    ensures NotesOf(req).Success? ==>
      resp == Response(OK, JObj([("content", EncodeAll(Suggestions(NotesOf(req).value)))]))
    ensures NotesOf(req).Failure? ==>
      && resp.status == ServerError
      && Field(resp.body, "content") == Some(JArr([]))
      && Field(resp.body, "error") == Some(JStr(FailureMessage))
      && Field(resp.body, "details") == Some(JStr(NotesOf(req).error))
  {
    var notes := NotesOf(req);
    if notes.Failure? {
      var members := [("content", JArr([])), ("error", JStr(FailureMessage)), ("details", JStr(notes.error))];
      LookupUnique(members, 0);
      return Response(ServerError, JObj(members));
    }
    var suggestions := GetFallbackSuggestions(notes.value);
    resp := Response(OK, JObj([("content", EncodeAll(suggestions))]));
  }
}
