/** The affluence and loyalty matrix, and the text normalisation in front of it. */
module SegmentClassifier {
  import opened Basics

  predicate IsGap(c: char) {
    c == ' ' || c == '_' || c == '-' || c == '\t' || c == '\n' || c == '\r'
  }

  function Lower(c: char): char {
    if 'A' <= c <= 'Z' then (c as int + 32) as char else c
  }

  /** Lower-cased words joined by single spaces; underscores and hyphens separate words too. */
  function Words(s: string, started: bool, gap: bool): string {
    if s == "" then ""
    else if IsGap(s[0]) then Words(s[1..], started, true)
    else (if started && gap then " " else "") + [Lower(s[0])] + Words(s[1..], true, false)
  }

  function Normalize(value: Option<string>): string {
    match value
    case None => ""
    case Some(s) => Words(s, false, false)
  }

  datatype Affluence = Affluent | LessAffluent
  datatype Loyalty = Loyal | New
  datatype Segment = PrestigeChampion | ValueDefender | AspiringLoyalist | PriceExplorer

  /** None stands for the classification error. */
  function NormalizeAffluence(value: Option<string>): Option<Affluence> {
    var text := Normalize(value);
    if text == "affluent" then Some(Affluent)
    else if text == "less affluent" || text == "non affluent" then Some(LessAffluent)
    else None
  }

  function NormalizeLoyalty(value: Option<string>): Option<Loyalty> {
    var text := Normalize(value);
    if text == "loyal" then Some(Loyal)
    else if text == "new" then Some(New)
    else None
  }

  /** The text a normalised loyalty status is stored as. */
  function LoyaltyText(l: Loyalty): string {
    match l
    case Loyal => "Loyal"
    case New => "New"
  }

  function Rule(a: Affluence, l: Loyalty): Segment {
    match (a, l)
    case (Affluent, Loyal) => PrestigeChampion
    case (LessAffluent, Loyal) => ValueDefender
    case (Affluent, New) => AspiringLoyalist
    case (LessAffluent, New) => PriceExplorer
  }

  function Classify(affluence: Option<string>, loyalty: Loyalty): Option<Segment> {
    match NormalizeAffluence(affluence)
    case None => None
    case Some(a) => Some(Rule(a, loyalty))
  }

  lemma WordStep(s: string, started: bool)
    requires s != "" && !IsGap(s[0])
    ensures Words(s, started, false) == [Lower(s[0])] + Words(s[1..], true, false)
  {
  }

  /** A stored status reads back as itself. */
  lemma StoredLoyaltyReadsBack(l: Loyalty)
    ensures NormalizeLoyalty(Some(LoyaltyText(l))) == Some(l)
  {
    var t := LoyaltyText(l);
    WordStep(t, false);
    if l == Loyal {
      assert t[1..] == "oyal" && "oyal"[1..] == "yal" && "yal"[1..] == "al" && "al"[1..] == "l" && "l"[1..] == "";
      WordStep("oyal", true);
      WordStep("yal", true);
      WordStep("al", true);
      WordStep("l", true);
    } else {
      assert t[1..] == "ew" && "ew"[1..] == "w" && "w"[1..] == "";
      WordStep("ew", true);
      WordStep("w", true);
    }
  }
}
