/**
 * components/HealthSymptomChecker.jsx: a text field holding the symptom
 * description and the advice shown after "Check Symptoms". The advice is
 * the one of the first keyword branch that holds on the lower-cased text.
 */
module SymptomChecker {
  import opened Text

  /** One `if` / `else if` branch: its keywords and the advice it sets. */
  datatype Branch = Branch(keywords: seq<string>, advice: string)

  const DefaultAdvice := "Please provide more details for accurate advice."
  const ViralAdvice := "You might have a viral infection or common cold. Stay hydrated and take rest."
  const HeadacheAdvice := "Try to rest, drink water, and avoid screen time. If it persists, consult a doctor."
  const ThroatAdvice := "You might be experiencing throat irritation or flu symptoms. Consider warm fluids and rest."
  const StomachAdvice := "Could be indigestion or acidity. Try light food and hydration."
  const ChestPainAdvice := "⚠️ Chest pain can be serious. Please seek medical attention immediately."

  const FeverWords: seq<string> := ["fever", "cold"]
  const HeadacheWords: seq<string> := ["headache"]
  const ThroatWords: seq<string> := ["cough", "sore throat"]
  const StomachWords: seq<string> := ["stomach", "pain"]
  const ChestPainWords: seq<string> := ["chest pain"]

  /** The branches in the order the chain tests them. */
  const Branches: seq<Branch> := [
    Branch(FeverWords, ViralAdvice),
    Branch(HeadacheWords, HeadacheAdvice),
    Branch(ThroatWords, ThroatAdvice),
    Branch(StomachWords, StomachAdvice),
    Branch(ChestPainWords, ChestPainAdvice)
  ]

  predicate Holds(b: Branch, text: string) {
    ContainsAny(text, b.keywords)
  }

  /** The advice of the first branch that holds, or the default when none does. */
  function FirstMatch(branches: seq<Branch>, text: string, default: string): string {
    if branches == [] then default
    else if Holds(branches[0], text) then branches[0].advice
    else FirstMatch(branches[1..], text, default)
  }

  /** The advice checkSymptoms sets for a symptom description. */
  function Advise(symptom: string): string {
    FirstMatch(Branches, Lower(symptom), DefaultAdvice)
  }

  /**
   * The first branch that holds decides: when branch k holds and no
   * earlier one does, its advice is the result.
   */
  lemma {:induction false} FirstMatchWins(branches: seq<Branch>, text: string, default: string, k: nat)
    requires k < |branches| && Holds(branches[k], text)
    requires forall j :: 0 <= j < k ==> !Holds(branches[j], text)
    ensures FirstMatch(branches, text, default) == branches[k].advice
  {
    if k > 0 {
      assert !Holds(branches[0], text);
      FirstMatchWins(branches[1..], text, default, k - 1);
    }
  }

  /** When no branch holds the default is kept. */
  lemma {:induction false} FirstMatchDefault(branches: seq<Branch>, text: string, default: string)
    requires forall j :: 0 <= j < |branches| ==> !Holds(branches[j], text)
    ensures FirstMatch(branches, text, default) == default
  {
    if branches != [] {
      assert !Holds(branches[0], text);
      FirstMatchDefault(branches[1..], text, default);
    }
  }

  /** The result comes from a branch that holds with no earlier one holding, or is the default. */
  lemma {:induction false} FirstMatchSource(branches: seq<Branch>, text: string, default: string)
    ensures var r := FirstMatch(branches, text, default);
      || (r == default && forall j :: 0 <= j < |branches| ==> !Holds(branches[j], text))
      || exists k :: 0 <= k < |branches| && Holds(branches[k], text) && r == branches[k].advice
           && forall j :: 0 <= j < k ==> !Holds(branches[j], text)
  {
    if branches != [] && !Holds(branches[0], text) {
      FirstMatchSource(branches[1..], text, default);
      var r := FirstMatch(branches, text, default);
      var rest := branches[1..];
      if r == default && forall j :: 0 <= j < |rest| ==> !Holds(rest[j], text) {
        assert forall j :: 0 <= j < |branches| ==> !Holds(branches[j], text) by {
          forall j | 0 <= j < |branches|
            ensures !Holds(branches[j], text)
          {
            if j > 0 { assert branches[j] == rest[j - 1]; }
          }
        }
      } else {
        var k :| 0 <= k < |rest| && Holds(rest[k], text) && r == rest[k].advice
                 && forall j :: 0 <= j < k ==> !Holds(rest[j], text);
        assert branches[k + 1] == rest[k];
        assert forall j :: 0 <= j < k + 1 ==> !Holds(branches[j], text) by {
          forall j | 0 <= j < k + 1
            ensures !Holds(branches[j], text)
          {
            if j > 0 { assert branches[j] == rest[j - 1]; }
          }
        }
      }
    }
  }

  /** "fever" or "cold" anywhere, in any letter case, gives the viral-infection advice. */
  lemma FeverOrCold(symptom: string)
    requires Contains(Lower(symptom), "fever") || Contains(Lower(symptom), "cold")
    ensures Advise(symptom) == ViralAdvice
  {
    ContainsAnyIff(Lower(symptom), FeverWords);
    FirstMatchWins(Branches, Lower(symptom), DefaultAdvice, 0);
  }

  /** The default advice is given exactly when no keyword of any branch occurs. */
  lemma DefaultIffNoKeyword(symptom: string)
    ensures Advise(symptom) == DefaultAdvice <==>
            forall k :: 0 <= k < |Branches| ==> !Holds(Branches[k], Lower(symptom))
  {
    FirstMatchSource(Branches, Lower(symptom), DefaultAdvice);
  }

  /**
   * The chest-pain advice is never given: any text containing "chest pain"
   * contains "pain", so the stomach branch (or an earlier one) fires first.
   */
  lemma ChestPainUnreachable(symptom: string)
    ensures Advise(symptom) != ChestPainAdvice
  {
    var text := Lower(symptom);
    FirstMatchSource(Branches, text, DefaultAdvice);
    if Holds(Branches[4], text) {
      ContainsAnyIff(text, ChestPainWords);
      assert "pain" <= "chest pain"[6..];
      ContainsTransitive(text, "chest pain", "pain");
      ContainsAnyIff(text, StomachWords);
      assert Holds(Branches[3], text);
    }
  }

  /** Every advice the checker can set is non-empty, so the advice box is shown. */
  lemma AdviceNonEmpty(symptom: string)
    ensures Advise(symptom) != ""
  {
    FirstMatchSource(Branches, Lower(symptom), DefaultAdvice);
  }

  /** Letter case does not matter. */
  lemma AdviseIgnoresCase(symptom: string)
    ensures Advise(Upper(symptom)) == Advise(symptom)
    ensures Advise(Lower(symptom)) == Advise(symptom)
  {
    LowerUpper(symptom);
    LowerIdempotent(symptom);
  }

  /** The component's state: the input text and the advice on display. */
  class Checker {
    var symptom: string
    var advice: string

    /** Both start empty; no advice is shown. */
    constructor ()
      ensures symptom == "" && advice == ""
    {
      symptom := "";
      advice := "";
    }

    /** The input's onChange: the text is replaced, the advice stays. */
    method SetSymptom(text: string)
      modifies this
      ensures symptom == text && advice == old(advice)
    {
      symptom := text;
    }

    /** checkSymptoms: the first matching branch's advice, or the default. */
    method CheckSymptoms()
      modifies this
      ensures symptom == old(symptom)
      ensures advice == Advise(symptom)
      ensures advice != ""
    {
      var lower := Lower(symptom);
      var result := DefaultAdvice;

      if ContainsAny(lower, FeverWords) {
        result := ViralAdvice;
        FirstMatchWins(Branches, lower, DefaultAdvice, 0);
      } else if ContainsAny(lower, HeadacheWords) {
        result := HeadacheAdvice;
        FirstMatchWins(Branches, lower, DefaultAdvice, 1);
      } else if ContainsAny(lower, ThroatWords) {
        result := ThroatAdvice;
        FirstMatchWins(Branches, lower, DefaultAdvice, 2);
      } else if ContainsAny(lower, StomachWords) {
        result := StomachAdvice;
        FirstMatchWins(Branches, lower, DefaultAdvice, 3);
      } else if ContainsAny(lower, ChestPainWords) {
        result := ChestPainAdvice;
        FirstMatchWins(Branches, lower, DefaultAdvice, 4);
      } else {
        FirstMatchDefault(Branches, lower, DefaultAdvice);
      }

      advice := result;
    }
  }
}
