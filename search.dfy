/** The site search dialog: a fixed catalog of therapists, services,
    offices and frequently asked questions, matched case-insensitively
    against the query once the query has settled for 300 ms. */
module Search {
  import opened Text
  import Seqs
  import opened Validation

  datatype Kind = TherapistResult | ServiceResult | LocationResult | FaqResult

  /** A catalog entry. Its title and description are kept as their words,
      which `Title` and `Description` join with single spaces into the
      text the dialog shows and searches; the category is a single word. */
  datatype Entry = Entry(kind: Kind, titleWords: seq<string>, descriptionWords: seq<string>, category: string)

  function Title(e: Entry): string {
    Join(e.titleWords)
  }

  function Description(e: Entry): string {
    Join(e.descriptionWords)
  }

  const SarahMitchell := Entry(TherapistResult, ["Dr.", "Sarah", "Mitchell"],
    ["Licensed", "Clinical", "Psychologist", "specializing", "in", "Anxiety,", "Depression,", "and", "Trauma", "Recovery"],
    "Therapist")
  const MichaelRodriguez := Entry(TherapistResult, ["Michael", "Rodriguez"],
    ["Licensed", "Marriage", "&", "Family", "Therapist", "specializing", "in", "Couples", "and", "Family", "Counseling"],
    "Therapist")
  const EmilyChen := Entry(TherapistResult, ["Dr.", "Emily", "Chen"],
    ["Licensed", "Clinical", "Social", "Worker", "specializing", "in", "Child", "&", "Adolescent", "Therapy"],
    "Therapist")
  const JamesThompson := Entry(TherapistResult, ["James", "Thompson"],
    ["Licensed", "Professional", "Counselor", "specializing", "in", "Addiction", "Recovery", "and", "Crisis", "Intervention"],
    "Therapist")
  const IndividualTherapy := Entry(ServiceResult, ["Individual", "Therapy"],
    ["One-on-one", "sessions", "for", "anxiety,", "depression,", "trauma,", "and", "personal", "growth"],
    "Service")
  const CouplesTherapy := Entry(ServiceResult, ["Couples", "Therapy"],
    ["Relationship", "counseling", "to", "strengthen", "communication", "and", "resolve", "conflicts"],
    "Service")
  const FamilyTherapy := Entry(ServiceResult, ["Family", "Therapy"],
    ["Heal", "family", "dynamics", "and", "improve", "relationships", "between", "family", "members"],
    "Service")
  const ChildTherapy := Entry(ServiceResult, ["Child", "Therapy"],
    ["Specialized", "care", "for", "children", "with", "behavioral", "and", "emotional", "challenges"],
    "Service")
  const CrisisIntervention := Entry(ServiceResult, ["Crisis", "Intervention"],
    ["24/7", "support", "for", "mental", "health", "emergencies", "and", "crisis", "situations"],
    "Service")
  const GroupTherapy := Entry(ServiceResult, ["Group", "Therapy"],
    ["Connect", "with", "others", "facing", "similar", "challenges", "in", "supportive", "group", "settings"],
    "Service")
  const DenverOffice := Entry(LocationResult, ["Denver", "Office"],
    ["Main", "Office:", "123", "Wellness", "Way,", "Denver,", "CO", "80202"],
    "Location")
  const BoulderOffice := Entry(LocationResult, ["Boulder", "Office"],
    ["456", "Mountain", "View", "Dr,", "Boulder,", "CO", "80301"],
    "Location")
  const FortCollinsOffice := Entry(LocationResult, ["Fort", "Collins", "Office"],
    ["789", "Harmony", "Rd,", "Fort", "Collins,", "CO", "80526"],
    "Location")
  const FaqRightForMe := Entry(FaqResult, ["How", "do", "I", "know", "if", "therapy", "is", "right", "for", "me?"],
    ["Learn", "about", "the", "signs", "that", "indicate", "therapy", "might", "be", "helpful", "for", "your", "situation"],
    "FAQ")
  const FaqFirstSession := Entry(FaqResult, ["What", "should", "I", "expect", "in", "my", "first", "session?"],
    ["Understanding", "the", "intake", "process", "and", "what", "happens", "in", "your", "first", "therapy", "session"],
    "FAQ")
  const FaqInsurance := Entry(FaqResult, ["Do", "you", "accept", "my", "insurance?"],
    ["Information", "about", "insurance", "coverage", "and", "payment", "options"],
    "FAQ")
  const FaqDuration := Entry(FaqResult, ["How", "long", "does", "therapy", "take?"],
    ["Understanding", "therapy", "duration", "and", "what", "factors", "influence", "treatment", "length"],
    "FAQ")
  const FaqConfidential := Entry(FaqResult, ["Is", "therapy", "confidential?"],
    ["Learn", "about", "privacy,", "HIPAA", "protection,", "and", "confidentiality", "in", "therapy"],
    "FAQ")

  const TherapistEntries := [SarahMitchell, MichaelRodriguez, EmilyChen, JamesThompson]
  const ServiceEntries :=
    [IndividualTherapy, CouplesTherapy, FamilyTherapy, ChildTherapy, CrisisIntervention, GroupTherapy]
  const LocationEntries := [DenverOffice, BoulderOffice, FortCollinsOffice]
  const FaqEntries := [FaqRightForMe, FaqFirstSession, FaqInsurance, FaqDuration, FaqConfidential]

  /** `searchData`: therapists, services, offices, then questions, in the
      order the dialog lists its matches. */
  const SearchData: seq<Entry> := TherapistEntries + ServiceEntries + LocationEntries + FaqEntries

  /** Queries shorter than this many UTF-16 units are not searched. */
  const MinQueryLength := 2

  /** The filter's test, given the lower-cased query: the lower-cased
      title, description or category contains it. */
  predicate MatchesLowered(lq: string, e: Entry) {
    || Contains(Lower(Title(e)), lq)
    || Contains(Lower(Description(e)), lq)
    || Contains(Lower(e.category), lq)
  }

  function MatchFilter(lq: string): Entry -> bool {
    (e: Entry) => MatchesLowered(lq, e)
  }

  /** What the dialog settles on for query `q` over the entries `data`:
      nothing for a query under two units long (the untrimmed length, so
      " a" is searched), otherwise the entries that match, in their order. */
  function ResultsIn(data: seq<Entry>, q: string): (r: seq<Entry>)
    ensures JsLength(q) < MinQueryLength ==> r == []
    ensures |r| <= |data|
  {
    if JsLength(q) < MinQueryLength then [] else Seqs.Filter(MatchFilter(Lower(q)), data)
  }

  /** The results over the site's own catalog. */
  function Results(q: string): (r: seq<Entry>)
    ensures JsLength(q) < MinQueryLength ==> r == []
    ensures |r| <= |SearchData|
  {
    ResultsIn(SearchData, q)
  }

  /** An entry is a result exactly when the query is long enough, the
      entry is in the catalog and its text contains the query, case
      ignored. */
  lemma ResultsMembers(q: string, e: Entry)
    ensures e in Results(q) <==> JsLength(q) >= MinQueryLength && e in SearchData && MatchesLowered(Lower(q), e)
  {
    Seqs.FilterMembers(MatchFilter(Lower(q)), SearchData);
  }

  /** Four blocks without repeats, each of its own kind, concatenate to a
      list without repeats. */
  lemma BlocksDistinct(a: seq<Entry>, b: seq<Entry>, c: seq<Entry>, d: seq<Entry>)
    requires Seqs.NoDuplicates(a) && Seqs.NoDuplicates(b) && Seqs.NoDuplicates(c) && Seqs.NoDuplicates(d)
    requires forall x | x in a :: x.kind == TherapistResult
    requires forall x | x in b :: x.kind == ServiceResult
    requires forall x | x in c :: x.kind == LocationResult
    requires forall x | x in d :: x.kind == FaqResult
    ensures Seqs.NoDuplicates(a + b + c + d)
  {
    Seqs.NoDuplicatesAppend(a, b);
    assert forall x | x in a + b :: x.kind == TherapistResult || x.kind == ServiceResult;
    Seqs.NoDuplicatesAppend(a + b, c);
    assert forall x | x in a + b + c :: x.kind != FaqResult;
    Seqs.NoDuplicatesAppend(a + b + c, d);
  }

  lemma Distinct3<T>(a: T, b: T, c: T)
    requires a != b && a != c && b != c
    ensures Seqs.NoDuplicates([a, b, c])
  {
  }

  lemma Distinct4<T>(a: T, b: T, c: T, d: T)
    requires a != b && a != c && a != d && b != c && b != d && c != d
    ensures Seqs.NoDuplicates([a, b, c, d])
  {
  }

  lemma Distinct5<T>(a: T, b: T, c: T, d: T, e: T)
    requires a != b && a != c && a != d && a != e && b != c && b != d && b != e
    requires c != d && c != e && d != e
    ensures Seqs.NoDuplicates([a, b, c, d, e])
  {
  }

  lemma Distinct6<T>(a: T, b: T, c: T, d: T, e: T, f: T)
    requires a != b && a != c && a != d && a != e && a != f && b != c && b != d && b != e && b != f
    requires c != d && c != e && c != f && d != e && d != f && e != f
    ensures Seqs.NoDuplicates([a, b, c, d, e, f])
  {
  }

  lemma KindsOf3(a: Entry, b: Entry, c: Entry, k: Kind)
    requires a.kind == k && b.kind == k && c.kind == k
    ensures forall x | x in [a, b, c] :: x.kind == k
  {
  }

  lemma KindsOf4(a: Entry, b: Entry, c: Entry, d: Entry, k: Kind)
    requires a.kind == k && b.kind == k && c.kind == k && d.kind == k
    ensures forall x | x in [a, b, c, d] :: x.kind == k
  {
  }

  lemma KindsOf5(a: Entry, b: Entry, c: Entry, d: Entry, e: Entry, k: Kind)
    requires a.kind == k && b.kind == k && c.kind == k && d.kind == k && e.kind == k
    ensures forall x | x in [a, b, c, d, e] :: x.kind == k
  {
  }

  lemma KindsOf6(a: Entry, b: Entry, c: Entry, d: Entry, e: Entry, f: Entry, k: Kind)
    requires a.kind == k && b.kind == k && c.kind == k && d.kind == k && e.kind == k && f.kind == k
    ensures forall x | x in [a, b, c, d, e, f] :: x.kind == k
  {
  }

  /** No entry is listed twice: the blocks hold different kinds, and
      within a block the entries differ. */
  lemma SearchDataDistinct()
    ensures Seqs.NoDuplicates(SearchData)
  {
    Distinct4(SarahMitchell, MichaelRodriguez, EmilyChen, JamesThompson);
    Distinct6(IndividualTherapy, CouplesTherapy, FamilyTherapy, ChildTherapy, CrisisIntervention, GroupTherapy);
    Distinct3(DenverOffice, BoulderOffice, FortCollinsOffice);
    Distinct5(FaqRightForMe, FaqFirstSession, FaqInsurance, FaqDuration, FaqConfidential);
    KindsOf4(SarahMitchell, MichaelRodriguez, EmilyChen, JamesThompson, TherapistResult);
    KindsOf6(IndividualTherapy, CouplesTherapy, FamilyTherapy, ChildTherapy, CrisisIntervention, GroupTherapy, ServiceResult);
    KindsOf3(DenverOffice, BoulderOffice, FortCollinsOffice, LocationResult);
    KindsOf5(FaqRightForMe, FaqFirstSession, FaqInsurance, FaqDuration, FaqConfidential, FaqResult);
    BlocksDistinct(TherapistEntries, ServiceEntries, LocationEntries, FaqEntries);
  }

  /** The results keep catalog order and list no entry twice: no ranking
      and no merging. */
  lemma ResultsOrdered(q: string)
    ensures Seqs.IsSubsequence(Results(q), SearchData)
    ensures Seqs.NoDuplicates(Results(q))
  {
    if JsLength(q) >= MinQueryLength {
      Seqs.FilterIsSubsequence(MatchFilter(Lower(q)), SearchData);
      SearchDataDistinct();
      Seqs.FilterNoDuplicates(MatchFilter(Lower(q)), SearchData);
    }
  }

  /** Queries that differ only in letter case give the same results. */
  lemma CaseInsensitive(q1: string, q2: string)
    requires Lower(q1) == Lower(q2)
    ensures Results(q1) == Results(q2)
  {
    JsLengthLower(q1);
    JsLengthLower(q2);
  }

  /** Typing more narrows the search: a query containing another (both
      long enough) matches no entry the shorter one misses. */
  lemma Narrowing(q1: string, q2: string, e: Entry)
    requires Contains(q2, q1)
    requires JsLength(q1) >= MinQueryLength && JsLength(q2) >= MinQueryLength
    requires e in Results(q2)
    ensures e in Results(q1)
  {
    ResultsMembers(q1, e);
    ResultsMembers(q2, e);
    ContainsLower(q2, q1);
    if Contains(Lower(Title(e)), Lower(q2)) {
      ContainsTransitive(Lower(Title(e)), Lower(q2), Lower(q1));
    } else if Contains(Lower(Description(e)), Lower(q2)) {
      ContainsTransitive(Lower(Description(e)), Lower(q2), Lower(q1));
    } else {
      ContainsTransitive(Lower(e.category), Lower(q2), Lower(q1));
    }
  }
  // ------------------------------------------------- scanning the catalog

  /** No `x` (or `X`) in `s` is directly followed by a `y` (or `Y`). */
  predicate LacksPair(s: string, x: char, X: char, y: char, Y: char) {
    forall i | 0 <= i < |s| - 1 :: !((s[i] == x || s[i] == X) && (s[i + 1] == y || s[i + 1] == Y))
  }

  predicate WordsLackPair(ws: seq<string>, x: char, X: char, y: char, Y: char) {
    forall k | 0 <= k < |ws| :: LacksPair(ws[k], x, X, y, Y)
  }

  lemma {:induction false} JoinLacksPair(ws: seq<string>, x: char, X: char, y: char, Y: char)
    requires x != ' ' && X != ' ' && y != ' ' && Y != ' '
    requires WordsLackPair(ws, x, X, y, Y)
    ensures LacksPair(Join(ws), x, X, y, Y)
  {
    if |ws| > 1 {
      assert WordsLackPair(ws[1..], x, X, y, Y) by {
        forall k | 0 <= k < |ws[1..]| ensures LacksPair(ws[1..][k], x, X, y, Y) {
          assert ws[1..][k] == ws[k + 1];
        }
      }
      JoinLacksPair(ws[1..], x, X, y, Y);
      assert LacksPair(ws[0], x, X, y, Y);
      var w := ws[0];
      var j := w + " " + Join(ws[1..]);
      forall i | 0 <= i < |j| - 1 ensures !((j[i] == x || j[i] == X) && (j[i + 1] == y || j[i + 1] == Y)) {
        if i + 1 < |w| {
          assert j[i] == w[i] && j[i + 1] == w[i + 1];
        } else if i + 1 == |w| {
          assert j[i + 1] == ' ';
        } else if i == |w| {
          assert j[i] == ' ';
        } else {
          assert j[i] == Join(ws[1..])[i - |w| - 1] && j[i + 1] == Join(ws[1..])[i - |w|];
        }
      }
    } else if |ws| == 1 {
      assert LacksPair(ws[0], x, X, y, Y);
    }
  }

  /** Word lists of fixed length, for the catalog's titles and
      descriptions: each word is checked on its own, so the concrete list
      is never searched by index. */
  lemma WordsLackPair2(a: string, b: string, x: char, X: char, y: char, Y: char)
    requires LacksPair(a, x, X, y, Y) && LacksPair(b, x, X, y, Y)
    ensures WordsLackPair([a, b], x, X, y, Y)
  {
  }

  lemma WordsLackPair3(a: string, b: string, c: string, x: char, X: char, y: char, Y: char)
    requires LacksPair(a, x, X, y, Y) && LacksPair(b, x, X, y, Y) && LacksPair(c, x, X, y, Y)
    ensures WordsLackPair([a, b, c], x, X, y, Y)
  {
  }

  lemma WordsLackPair5(a: string, b: string, c: string, d: string, e: string, x: char, X: char, y: char, Y: char)
    requires LacksPair(a, x, X, y, Y) && LacksPair(b, x, X, y, Y) && LacksPair(c, x, X, y, Y) && LacksPair(d, x, X, y, Y) && LacksPair(e, x, X, y, Y)
    ensures WordsLackPair([a, b, c, d, e], x, X, y, Y)
  {
  }

  lemma WordsLackPair7(a: string, b: string, c: string, d: string, e: string, f: string, g: string, x: char, X: char, y: char, Y: char)
    requires LacksPair(a, x, X, y, Y) && LacksPair(b, x, X, y, Y) && LacksPair(c, x, X, y, Y) && LacksPair(d, x, X, y, Y) && LacksPair(e, x, X, y, Y) && LacksPair(f, x, X, y, Y) && LacksPair(g, x, X, y, Y)
    ensures WordsLackPair([a, b, c, d, e, f, g], x, X, y, Y)
  {
  }

  lemma WordsLackPair8(a: string, b: string, c: string, d: string, e: string, f: string, g: string, h: string, x: char, X: char, y: char, Y: char)
    requires LacksPair(a, x, X, y, Y) && LacksPair(b, x, X, y, Y) && LacksPair(c, x, X, y, Y) && LacksPair(d, x, X, y, Y) && LacksPair(e, x, X, y, Y) && LacksPair(f, x, X, y, Y) && LacksPair(g, x, X, y, Y) && LacksPair(h, x, X, y, Y)
    ensures WordsLackPair([a, b, c, d, e, f, g, h], x, X, y, Y)
  {
  }

  lemma WordsLackPair9(a: string, b: string, c: string, d: string, e: string, f: string, g: string, h: string, i: string, x: char, X: char, y: char, Y: char)
    requires LacksPair(a, x, X, y, Y) && LacksPair(b, x, X, y, Y) && LacksPair(c, x, X, y, Y) && LacksPair(d, x, X, y, Y) && LacksPair(e, x, X, y, Y) && LacksPair(f, x, X, y, Y) && LacksPair(g, x, X, y, Y) && LacksPair(h, x, X, y, Y) && LacksPair(i, x, X, y, Y)
    ensures WordsLackPair([a, b, c, d, e, f, g, h, i], x, X, y, Y)
  {
  }

  lemma WordsLackPair10(a: string, b: string, c: string, d: string, e: string, f: string, g: string, h: string, i: string, j: string, x: char, X: char, y: char, Y: char)
    requires LacksPair(a, x, X, y, Y) && LacksPair(b, x, X, y, Y) && LacksPair(c, x, X, y, Y) && LacksPair(d, x, X, y, Y) && LacksPair(e, x, X, y, Y) && LacksPair(f, x, X, y, Y) && LacksPair(g, x, X, y, Y) && LacksPair(h, x, X, y, Y) && LacksPair(i, x, X, y, Y) && LacksPair(j, x, X, y, Y)
    ensures WordsLackPair([a, b, c, d, e, f, g, h, i, j], x, X, y, Y)
  {
  }

  lemma WordsLackPair11(a: string, b: string, c: string, d: string, e: string, f: string, g: string, h: string, i: string, j: string, k: string, x: char, X: char, y: char, Y: char)
    requires LacksPair(a, x, X, y, Y) && LacksPair(b, x, X, y, Y) && LacksPair(c, x, X, y, Y) && LacksPair(d, x, X, y, Y) && LacksPair(e, x, X, y, Y) && LacksPair(f, x, X, y, Y) && LacksPair(g, x, X, y, Y) && LacksPair(h, x, X, y, Y) && LacksPair(i, x, X, y, Y) && LacksPair(j, x, X, y, Y) && LacksPair(k, x, X, y, Y)
    ensures WordsLackPair([a, b, c, d, e, f, g, h, i, j, k], x, X, y, Y)
  {
  }

  lemma WordsLackPair12(a: string, b: string, c: string, d: string, e: string, f: string, g: string, h: string, i: string, j: string, k: string, l: string, x: char, X: char, y: char, Y: char)
    requires LacksPair(a, x, X, y, Y) && LacksPair(b, x, X, y, Y) && LacksPair(c, x, X, y, Y) && LacksPair(d, x, X, y, Y) && LacksPair(e, x, X, y, Y) && LacksPair(f, x, X, y, Y) && LacksPair(g, x, X, y, Y) && LacksPair(h, x, X, y, Y) && LacksPair(i, x, X, y, Y) && LacksPair(j, x, X, y, Y) && LacksPair(k, x, X, y, Y) && LacksPair(l, x, X, y, Y)
    ensures WordsLackPair([a, b, c, d, e, f, g, h, i, j, k, l], x, X, y, Y)
  {
  }

  lemma WordsLackPair13(a: string, b: string, c: string, d: string, e: string, f: string, g: string, h: string, i: string, j: string, k: string, l: string, m: string, x: char, X: char, y: char, Y: char)
    requires LacksPair(a, x, X, y, Y) && LacksPair(b, x, X, y, Y) && LacksPair(c, x, X, y, Y) && LacksPair(d, x, X, y, Y) && LacksPair(e, x, X, y, Y) && LacksPair(f, x, X, y, Y) && LacksPair(g, x, X, y, Y) && LacksPair(h, x, X, y, Y) && LacksPair(i, x, X, y, Y) && LacksPair(j, x, X, y, Y) && LacksPair(k, x, X, y, Y) && LacksPair(l, x, X, y, Y) && LacksPair(m, x, X, y, Y)
    ensures WordsLackPair([a, b, c, d, e, f, g, h, i, j, k, l, m], x, X, y, Y)
  {
  }

  /** Two adjacent letters `x`, `y` of the query that never stand side by
      side in the text, in either case (`X`, `Y`), rule the text out. */
  lemma LacksPairNoMatch(s: string, lq: string, k: int, x: char, X: char, y: char, Y: char)
    requires 0 <= k && k + 1 < |lq| && lq[k] == x && lq[k + 1] == y
    requires 'a' <= x <= 'z' && X as int == x as int - 32
    requires 'a' <= y <= 'z' && Y as int == y as int - 32
    requires LacksPair(s, x, X, y, Y)
    ensures !Contains(Lower(s), lq)
  {
    var l := Lower(s);
    forall i | 0 <= i <= |l| - |lq| ensures !OccursAt(l, lq, i) {
      assert l[i..i + |lq|][k] == l[i + k] == LowerChar(s[i + k]);
      assert l[i..i + |lq|][k + 1] == l[i + k + 1] == LowerChar(s[i + k + 1]);
    }
  }

  /** An entry whose texts never hold the query's letters `lq[k]` and
      `lq[k + 1]` side by side does not match it. */
  lemma MissesByPair(e: Entry, lq: string, k: int, x: char, X: char, y: char, Y: char)
    requires 0 <= k && k + 1 < |lq| && lq[k] == x && lq[k + 1] == y
    requires 'a' <= x <= 'z' && X as int == x as int - 32
    requires 'a' <= y <= 'z' && Y as int == y as int - 32
    requires WordsLackPair(e.titleWords, x, X, y, Y)
    requires WordsLackPair(e.descriptionWords, x, X, y, Y)
    requires LacksPair(e.category, x, X, y, Y)
    ensures !MatchesLowered(lq, e)
  {
    JoinLacksPair(e.titleWords, x, X, y, Y);
    JoinLacksPair(e.descriptionWords, x, X, y, Y);
    LacksPairNoMatch(Title(e), lq, k, x, X, y, Y);
    LacksPairNoMatch(Description(e), lq, k, x, X, y, Y);
    LacksPairNoMatch(e.category, lq, k, x, X, y, Y);
  }

  /** Every word of a text occurs in it. */
  lemma {:induction false} JoinContainsWord(ws: seq<string>, k: int)
    requires 0 <= k < |ws|
    ensures Contains(Join(ws), ws[k])
  {
    if |ws| == 1 {
      ContainsSelf(ws[0]);
    } else if k == 0 {
      ContainsSelf(ws[0]);
      ContainsExtend("", ws[0], " " + Join(ws[1..]), ws[0]);
      assert "" + ws[0] + (" " + Join(ws[1..])) == Join(ws);
    } else {
      JoinContainsWord(ws[1..], k - 1);
      ContainsExtend(ws[0] + " ", Join(ws[1..]), "", ws[k]);
      assert ws[0] + " " + Join(ws[1..]) + "" == Join(ws);
    }
  }

  /** An entry whose title has word `w` matches the lower-cased `w`. */
  lemma TitleWordMatches(e: Entry, k: int, w: string)
    requires 0 <= k < |e.titleWords| && e.titleWords[k] == w
    ensures MatchesLowered(Lower(w), e)
  {
    JoinContainsWord(e.titleWords, k);
    ContainsLower(Title(e), w);
  }

  /** An entry whose description has word `w` matches the lower-cased `w`. */
  lemma DescriptionWordMatches(e: Entry, k: int, w: string)
    requires 0 <= k < |e.descriptionWords| && e.descriptionWords[k] == w
    ensures MatchesLowered(Lower(w), e)
  {
    JoinContainsWord(e.descriptionWords, k);
    ContainsLower(Description(e), w);
  }

  /** An entry of category `c` matches the lower-cased `c`. */
  lemma CategoryMatches(e: Entry)
    ensures MatchesLowered(Lower(e.category), e)
  {
    ContainsSelf(Lower(e.category));
  }

  lemma LowerFaq()
    ensures Lower("FAQ") == "faq"
  {
  }

  lemma LowerCouples()
    ensures Lower("Couples") == "couples"
  {
  }

  /** The question entries all match "faq" through their category. */
  lemma FaqEntryMatches(e: Entry)
    requires e.category == "FAQ"
    ensures MatchesLowered("faq", e)
  {
    CategoryMatches(e);
    LowerFaq();
  }

  lemma MichaelRodriguezMatchesCouples()
    ensures MatchesLowered("couples", MichaelRodriguez)
  {
    DescriptionWordMatches(MichaelRodriguez, 7, "Couples");
    LowerCouples();
  }

  lemma CouplesTherapyMatchesCouples()
    ensures MatchesLowered("couples", CouplesTherapy)
  {
    TitleWordMatches(CouplesTherapy, 0, "Couples");
    LowerCouples();
  }

  lemma SarahMitchellMissesFaq()
    ensures !MatchesLowered("faq", SarahMitchell)
  {
    WordsLackPair3("Dr.", "Sarah", "Mitchell", 'a', 'A', 'q', 'Q');
    WordsLackPair10("Licensed", "Clinical", "Psychologist", "specializing", "in", "Anxiety,", "Depression,", "and", "Trauma", "Recovery", 'a', 'A', 'q', 'Q');
    MissesByPair(SarahMitchell, "faq", 1, 'a', 'A', 'q', 'Q');
  }

  lemma MichaelRodriguezMissesFaq()
    ensures !MatchesLowered("faq", MichaelRodriguez)
  {
    WordsLackPair2("Michael", "Rodriguez", 'a', 'A', 'q', 'Q');
    WordsLackPair11("Licensed", "Marriage", "&", "Family", "Therapist", "specializing", "in", "Couples", "and", "Family", "Counseling", 'a', 'A', 'q', 'Q');
    MissesByPair(MichaelRodriguez, "faq", 1, 'a', 'A', 'q', 'Q');
  }

  lemma EmilyChenMissesFaq()
    ensures !MatchesLowered("faq", EmilyChen)
  {
    WordsLackPair3("Dr.", "Emily", "Chen", 'a', 'A', 'q', 'Q');
    WordsLackPair10("Licensed", "Clinical", "Social", "Worker", "specializing", "in", "Child", "&", "Adolescent", "Therapy", 'a', 'A', 'q', 'Q');
    MissesByPair(EmilyChen, "faq", 1, 'a', 'A', 'q', 'Q');
  }

  lemma JamesThompsonMissesFaq()
    ensures !MatchesLowered("faq", JamesThompson)
  {
    WordsLackPair2("James", "Thompson", 'a', 'A', 'q', 'Q');
    WordsLackPair10("Licensed", "Professional", "Counselor", "specializing", "in", "Addiction", "Recovery", "and", "Crisis", "Intervention", 'a', 'A', 'q', 'Q');
    MissesByPair(JamesThompson, "faq", 1, 'a', 'A', 'q', 'Q');
  }

  lemma IndividualTherapyMissesFaq()
    ensures !MatchesLowered("faq", IndividualTherapy)
  {
    WordsLackPair2("Individual", "Therapy", 'a', 'A', 'q', 'Q');
    WordsLackPair9("One-on-one", "sessions", "for", "anxiety,", "depression,", "trauma,", "and", "personal", "growth", 'a', 'A', 'q', 'Q');
    MissesByPair(IndividualTherapy, "faq", 1, 'a', 'A', 'q', 'Q');
  }

  lemma CouplesTherapyMissesFaq()
    ensures !MatchesLowered("faq", CouplesTherapy)
  {
    WordsLackPair2("Couples", "Therapy", 'a', 'A', 'q', 'Q');
    WordsLackPair8("Relationship", "counseling", "to", "strengthen", "communication", "and", "resolve", "conflicts", 'a', 'A', 'q', 'Q');
    MissesByPair(CouplesTherapy, "faq", 1, 'a', 'A', 'q', 'Q');
  }

  lemma FamilyTherapyMissesFaq()
    ensures !MatchesLowered("faq", FamilyTherapy)
  {
    WordsLackPair2("Family", "Therapy", 'a', 'A', 'q', 'Q');
    WordsLackPair9("Heal", "family", "dynamics", "and", "improve", "relationships", "between", "family", "members", 'a', 'A', 'q', 'Q');
    MissesByPair(FamilyTherapy, "faq", 1, 'a', 'A', 'q', 'Q');
  }

  lemma ChildTherapyMissesFaq()
    ensures !MatchesLowered("faq", ChildTherapy)
  {
    WordsLackPair2("Child", "Therapy", 'a', 'A', 'q', 'Q');
    WordsLackPair9("Specialized", "care", "for", "children", "with", "behavioral", "and", "emotional", "challenges", 'a', 'A', 'q', 'Q');
    MissesByPair(ChildTherapy, "faq", 1, 'a', 'A', 'q', 'Q');
  }

  lemma CrisisInterventionMissesFaq()
    ensures !MatchesLowered("faq", CrisisIntervention)
  {
    WordsLackPair2("Crisis", "Intervention", 'a', 'A', 'q', 'Q');
    WordsLackPair9("24/7", "support", "for", "mental", "health", "emergencies", "and", "crisis", "situations", 'a', 'A', 'q', 'Q');
    MissesByPair(CrisisIntervention, "faq", 1, 'a', 'A', 'q', 'Q');
  }

  lemma GroupTherapyMissesFaq()
    ensures !MatchesLowered("faq", GroupTherapy)
  {
    WordsLackPair2("Group", "Therapy", 'a', 'A', 'q', 'Q');
    WordsLackPair10("Connect", "with", "others", "facing", "similar", "challenges", "in", "supportive", "group", "settings", 'a', 'A', 'q', 'Q');
    MissesByPair(GroupTherapy, "faq", 1, 'a', 'A', 'q', 'Q');
  }

  lemma DenverOfficeMissesFaq()
    ensures !MatchesLowered("faq", DenverOffice)
  {
    WordsLackPair2("Denver", "Office", 'a', 'A', 'q', 'Q');
    WordsLackPair8("Main", "Office:", "123", "Wellness", "Way,", "Denver,", "CO", "80202", 'a', 'A', 'q', 'Q');
    MissesByPair(DenverOffice, "faq", 1, 'a', 'A', 'q', 'Q');
  }

  lemma BoulderOfficeMissesFaq()
    ensures !MatchesLowered("faq", BoulderOffice)
  {
    WordsLackPair2("Boulder", "Office", 'a', 'A', 'q', 'Q');
    WordsLackPair7("456", "Mountain", "View", "Dr,", "Boulder,", "CO", "80301", 'a', 'A', 'q', 'Q');
    MissesByPair(BoulderOffice, "faq", 1, 'a', 'A', 'q', 'Q');
  }

  lemma FortCollinsOfficeMissesFaq()
    ensures !MatchesLowered("faq", FortCollinsOffice)
  {
    WordsLackPair3("Fort", "Collins", "Office", 'a', 'A', 'q', 'Q');
    WordsLackPair7("789", "Harmony", "Rd,", "Fort", "Collins,", "CO", "80526", 'a', 'A', 'q', 'Q');
    MissesByPair(FortCollinsOffice, "faq", 1, 'a', 'A', 'q', 'Q');
  }

  lemma SarahMitchellMissesCouples()
    ensures !MatchesLowered("couples", SarahMitchell)
  {
    WordsLackPair3("Dr.", "Sarah", "Mitchell", 'p', 'P', 'l', 'L');
    WordsLackPair10("Licensed", "Clinical", "Psychologist", "specializing", "in", "Anxiety,", "Depression,", "and", "Trauma", "Recovery", 'p', 'P', 'l', 'L');
    MissesByPair(SarahMitchell, "couples", 3, 'p', 'P', 'l', 'L');
  }

  lemma EmilyChenMissesCouples()
    ensures !MatchesLowered("couples", EmilyChen)
  {
    WordsLackPair3("Dr.", "Emily", "Chen", 'p', 'P', 'l', 'L');
    WordsLackPair10("Licensed", "Clinical", "Social", "Worker", "specializing", "in", "Child", "&", "Adolescent", "Therapy", 'p', 'P', 'l', 'L');
    MissesByPair(EmilyChen, "couples", 3, 'p', 'P', 'l', 'L');
  }

  lemma JamesThompsonMissesCouples()
    ensures !MatchesLowered("couples", JamesThompson)
  {
    WordsLackPair2("James", "Thompson", 'p', 'P', 'l', 'L');
    WordsLackPair10("Licensed", "Professional", "Counselor", "specializing", "in", "Addiction", "Recovery", "and", "Crisis", "Intervention", 'p', 'P', 'l', 'L');
    MissesByPair(JamesThompson, "couples", 3, 'p', 'P', 'l', 'L');
  }

  lemma IndividualTherapyMissesCouples()
    ensures !MatchesLowered("couples", IndividualTherapy)
  {
    WordsLackPair2("Individual", "Therapy", 'p', 'P', 'l', 'L');
    WordsLackPair9("One-on-one", "sessions", "for", "anxiety,", "depression,", "trauma,", "and", "personal", "growth", 'p', 'P', 'l', 'L');
    MissesByPair(IndividualTherapy, "couples", 3, 'p', 'P', 'l', 'L');
  }

  lemma FamilyTherapyMissesCouples()
    ensures !MatchesLowered("couples", FamilyTherapy)
  {
    WordsLackPair2("Family", "Therapy", 'p', 'P', 'l', 'L');
    WordsLackPair9("Heal", "family", "dynamics", "and", "improve", "relationships", "between", "family", "members", 'p', 'P', 'l', 'L');
    MissesByPair(FamilyTherapy, "couples", 3, 'p', 'P', 'l', 'L');
  }

  lemma ChildTherapyMissesCouples()
    ensures !MatchesLowered("couples", ChildTherapy)
  {
    WordsLackPair2("Child", "Therapy", 'p', 'P', 'l', 'L');
    WordsLackPair9("Specialized", "care", "for", "children", "with", "behavioral", "and", "emotional", "challenges", 'p', 'P', 'l', 'L');
    MissesByPair(ChildTherapy, "couples", 3, 'p', 'P', 'l', 'L');
  }

  lemma CrisisInterventionMissesCouples()
    ensures !MatchesLowered("couples", CrisisIntervention)
  {
    WordsLackPair2("Crisis", "Intervention", 'p', 'P', 'l', 'L');
    WordsLackPair9("24/7", "support", "for", "mental", "health", "emergencies", "and", "crisis", "situations", 'p', 'P', 'l', 'L');
    MissesByPair(CrisisIntervention, "couples", 3, 'p', 'P', 'l', 'L');
  }

  lemma GroupTherapyMissesCouples()
    ensures !MatchesLowered("couples", GroupTherapy)
  {
    WordsLackPair2("Group", "Therapy", 'p', 'P', 'l', 'L');
    WordsLackPair10("Connect", "with", "others", "facing", "similar", "challenges", "in", "supportive", "group", "settings", 'p', 'P', 'l', 'L');
    MissesByPair(GroupTherapy, "couples", 3, 'p', 'P', 'l', 'L');
  }

  lemma DenverOfficeMissesCouples()
    ensures !MatchesLowered("couples", DenverOffice)
  {
    WordsLackPair2("Denver", "Office", 'p', 'P', 'l', 'L');
    WordsLackPair8("Main", "Office:", "123", "Wellness", "Way,", "Denver,", "CO", "80202", 'p', 'P', 'l', 'L');
    MissesByPair(DenverOffice, "couples", 3, 'p', 'P', 'l', 'L');
  }

  lemma BoulderOfficeMissesCouples()
    ensures !MatchesLowered("couples", BoulderOffice)
  {
    WordsLackPair2("Boulder", "Office", 'p', 'P', 'l', 'L');
    WordsLackPair7("456", "Mountain", "View", "Dr,", "Boulder,", "CO", "80301", 'p', 'P', 'l', 'L');
    MissesByPair(BoulderOffice, "couples", 3, 'p', 'P', 'l', 'L');
  }

  lemma FortCollinsOfficeMissesCouples()
    ensures !MatchesLowered("couples", FortCollinsOffice)
  {
    WordsLackPair3("Fort", "Collins", "Office", 'p', 'P', 'l', 'L');
    WordsLackPair7("789", "Harmony", "Rd,", "Fort", "Collins,", "CO", "80526", 'p', 'P', 'l', 'L');
    MissesByPair(FortCollinsOffice, "couples", 3, 'p', 'P', 'l', 'L');
  }

  lemma FaqRightForMeMissesCouples()
    ensures !MatchesLowered("couples", FaqRightForMe)
  {
    WordsLackPair10("How", "do", "I", "know", "if", "therapy", "is", "right", "for", "me?", 'p', 'P', 'l', 'L');
    WordsLackPair13("Learn", "about", "the", "signs", "that", "indicate", "therapy", "might", "be", "helpful", "for", "your", "situation", 'p', 'P', 'l', 'L');
    MissesByPair(FaqRightForMe, "couples", 3, 'p', 'P', 'l', 'L');
  }

  lemma FaqFirstSessionMissesCouples()
    ensures !MatchesLowered("couples", FaqFirstSession)
  {
    WordsLackPair8("What", "should", "I", "expect", "in", "my", "first", "session?", 'p', 'P', 'l', 'L');
    WordsLackPair12("Understanding", "the", "intake", "process", "and", "what", "happens", "in", "your", "first", "therapy", "session", 'p', 'P', 'l', 'L');
    MissesByPair(FaqFirstSession, "couples", 3, 'p', 'P', 'l', 'L');
  }

  lemma FaqInsuranceMissesCouples()
    ensures !MatchesLowered("couples", FaqInsurance)
  {
    WordsLackPair5("Do", "you", "accept", "my", "insurance?", 'p', 'P', 'l', 'L');
    WordsLackPair7("Information", "about", "insurance", "coverage", "and", "payment", "options", 'p', 'P', 'l', 'L');
    MissesByPair(FaqInsurance, "couples", 3, 'p', 'P', 'l', 'L');
  }

  lemma FaqDurationMissesCouples()
    ensures !MatchesLowered("couples", FaqDuration)
  {
    WordsLackPair5("How", "long", "does", "therapy", "take?", 'p', 'P', 'l', 'L');
    WordsLackPair9("Understanding", "therapy", "duration", "and", "what", "factors", "influence", "treatment", "length", 'p', 'P', 'l', 'L');
    MissesByPair(FaqDuration, "couples", 3, 'p', 'P', 'l', 'L');
  }

  lemma FaqConfidentialMissesCouples()
    ensures !MatchesLowered("couples", FaqConfidential)
  {
    WordsLackPair3("Is", "therapy", "confidential?", 'p', 'P', 'l', 'L');
    WordsLackPair9("Learn", "about", "privacy,", "HIPAA", "protection,", "and", "confidentiality", "in", "therapy", 'p', 'P', 'l', 'L');
    MissesByPair(FaqConfidential, "couples", 3, 'p', 'P', 'l', 'L');
  }

  /** No therapist, service or office mentions a "q". */
  lemma TherapistsMissFaq()
    ensures Seqs.Filter(MatchFilter("faq"), TherapistEntries) == []
  {
    SarahMitchellMissesFaq();
    MichaelRodriguezMissesFaq();
    EmilyChenMissesFaq();
    JamesThompsonMissesFaq();
    DropFour(MatchFilter("faq"), SarahMitchell, MichaelRodriguez, EmilyChen, JamesThompson);
  }

  lemma ServicesMissFaq()
    ensures Seqs.Filter(MatchFilter("faq"), ServiceEntries) == []
  {
    IndividualTherapyMissesFaq();
    CouplesTherapyMissesFaq();
    FamilyTherapyMissesFaq();
    ChildTherapyMissesFaq();
    CrisisInterventionMissesFaq();
    GroupTherapyMissesFaq();
    DropSix(MatchFilter("faq"), IndividualTherapy, CouplesTherapy, FamilyTherapy, ChildTherapy, CrisisIntervention, GroupTherapy);
  }

  lemma LocationsMissFaq()
    ensures Seqs.Filter(MatchFilter("faq"), LocationEntries) == []
  {
    DenverOfficeMissesFaq();
    BoulderOfficeMissesFaq();
    FortCollinsOfficeMissesFaq();
    DropThree(MatchFilter("faq"), DenverOffice, BoulderOffice, FortCollinsOffice);
  }

  lemma FaqsMatchFaq()
    ensures Seqs.Filter(MatchFilter("faq"), FaqEntries) == FaqEntries
  {
    FaqEntryMatches(FaqRightForMe);
    FaqEntryMatches(FaqFirstSession);
    FaqEntryMatches(FaqInsurance);
    FaqEntryMatches(FaqDuration);
    FaqEntryMatches(FaqConfidential);
    KeepFive(MatchFilter("faq"), FaqRightForMe, FaqFirstSession, FaqInsurance, FaqDuration, FaqConfidential);
  }

  /** Fixed-arity filters, proved once for any element type so that the
      concrete catalog entries are never unfolded inside the chain. */
  lemma DropThree<T>(p: T -> bool, a: T, b: T, c: T)
    requires !p(a) && !p(b) && !p(c)
    ensures Seqs.Filter(p, [a, b, c]) == []
  {
    Seqs.FilterCons(p, a, [b, c]);
    Seqs.FilterCons(p, b, [c]);
    Seqs.FilterCons(p, c, []);
  }

  lemma DropFour<T>(p: T -> bool, a: T, b: T, c: T, d: T)
    requires !p(a) && !p(b) && !p(c) && !p(d)
    ensures Seqs.Filter(p, [a, b, c, d]) == []
  {
    Seqs.FilterCons(p, a, [b, c, d]);
    DropThree(p, b, c, d);
  }

  lemma DropFive<T>(p: T -> bool, a: T, b: T, c: T, d: T, e: T)
    requires !p(a) && !p(b) && !p(c) && !p(d) && !p(e)
    ensures Seqs.Filter(p, [a, b, c, d, e]) == []
  {
    Seqs.FilterCons(p, a, [b, c, d, e]);
    DropFour(p, b, c, d, e);
  }

  lemma DropSix<T>(p: T -> bool, a: T, b: T, c: T, d: T, e: T, f: T)
    requires !p(a) && !p(b) && !p(c) && !p(d) && !p(e) && !p(f)
    ensures Seqs.Filter(p, [a, b, c, d, e, f]) == []
  {
    Seqs.FilterCons(p, a, [b, c, d, e, f]);
    DropFive(p, b, c, d, e, f);
  }

  lemma KeepSecondOfFour<T>(p: T -> bool, a: T, b: T, c: T, d: T)
    requires !p(a) && p(b) && !p(c) && !p(d)
    ensures Seqs.Filter(p, [a, b, c, d]) == [b]
  {
    Seqs.FilterCons(p, a, [b, c, d]);
    Seqs.FilterCons(p, b, [c, d]);
    Seqs.FilterCons(p, c, [d]);
    Seqs.FilterCons(p, d, []);
  }

  lemma KeepSecondOfSix<T>(p: T -> bool, a: T, b: T, c: T, d: T, e: T, f: T)
    requires !p(a) && p(b) && !p(c) && !p(d) && !p(e) && !p(f)
    ensures Seqs.Filter(p, [a, b, c, d, e, f]) == [b]
  {
    Seqs.FilterCons(p, a, [b, c, d, e, f]);
    Seqs.FilterCons(p, b, [c, d, e, f]);
    DropFour(p, c, d, e, f);
  }

  lemma KeepFive<T>(p: T -> bool, a: T, b: T, c: T, d: T, e: T)
    requires p(a) && p(b) && p(c) && p(d) && p(e)
    ensures Seqs.Filter(p, [a, b, c, d, e]) == [a, b, c, d, e]
  {
    Seqs.FilterCons(p, a, [b, c, d, e]);
    Seqs.FilterCons(p, b, [c, d, e]);
    Seqs.FilterCons(p, c, [d, e]);
    Seqs.FilterCons(p, d, [e]);
    Seqs.FilterCons(p, e, []);
  }

  /** Filtering the catalog is filtering its four blocks. */
  lemma FilterBlocks(p: Entry -> bool)
    ensures Seqs.Filter(p, SearchData)
      == Seqs.Filter(p, TherapistEntries) + Seqs.Filter(p, ServiceEntries)
       + Seqs.Filter(p, LocationEntries) + Seqs.Filter(p, FaqEntries)
  {
    Seqs.FilterAppend(p, TherapistEntries, ServiceEntries);
    Seqs.FilterAppend(p, TherapistEntries + ServiceEntries, LocationEntries);
    Seqs.FilterAppend(p, TherapistEntries + ServiceEntries + LocationEntries, FaqEntries);
  }

  lemma ShortLiterals()
    ensures JsLength("faq") == 3 && Lower("faq") == "faq"
    ensures JsLength("couples") == 7 && Lower("couples") == "couples"
  {
  }

  /** Searching "faq" finds exactly the five questions, in catalog order:
      no other entry's text holds a "q". */
  lemma FaqExample()
    ensures Results("faq") == FaqEntries
  {
    ShortLiterals();
    FilterBlocks(MatchFilter("faq"));
    TherapistsMissFaq();
    ServicesMissFaq();
    LocationsMissFaq();
    FaqsMatchFaq();
  }

  lemma TherapistsCouples()
    ensures Seqs.Filter(MatchFilter("couples"), TherapistEntries) == [MichaelRodriguez]
  {
    var p := MatchFilter("couples");
    SarahMitchellMissesCouples();
    MichaelRodriguezMatchesCouples();
    EmilyChenMissesCouples();
    JamesThompsonMissesCouples();
    KeepSecondOfFour(p, SarahMitchell, MichaelRodriguez, EmilyChen, JamesThompson);
  }

  lemma ServicesCouples()
    ensures Seqs.Filter(MatchFilter("couples"), ServiceEntries) == [CouplesTherapy]
  {
    var p := MatchFilter("couples");
    IndividualTherapyMissesCouples();
    CouplesTherapyMatchesCouples();
    FamilyTherapyMissesCouples();
    ChildTherapyMissesCouples();
    CrisisInterventionMissesCouples();
    GroupTherapyMissesCouples();
    KeepSecondOfSix(p, IndividualTherapy, CouplesTherapy, FamilyTherapy, ChildTherapy, CrisisIntervention, GroupTherapy);
  }

  lemma LocationsMissCouples()
    ensures Seqs.Filter(MatchFilter("couples"), LocationEntries) == []
  {
    DenverOfficeMissesCouples();
    BoulderOfficeMissesCouples();
    FortCollinsOfficeMissesCouples();
    DropThree(MatchFilter("couples"), DenverOffice, BoulderOffice, FortCollinsOffice);
  }

  lemma FaqsMissCouples()
    ensures Seqs.Filter(MatchFilter("couples"), FaqEntries) == []
  {
    FaqRightForMeMissesCouples();
    FaqFirstSessionMissesCouples();
    FaqInsuranceMissesCouples();
    FaqDurationMissesCouples();
    FaqConfidentialMissesCouples();
    DropFive(MatchFilter("couples"), FaqRightForMe, FaqFirstSession, FaqInsurance, FaqDuration, FaqConfidential);
  }

  /** Searching "couples" finds the therapist whose description names
      couples counselling, then the couples therapy service. */
  lemma CouplesExample()
    ensures Results("couples") == [MichaelRodriguez, CouplesTherapy]
  {
    ShortLiterals();
    FilterBlocks(MatchFilter("couples"));
    TherapistsCouples();
    ServicesCouples();
    LocationsMissCouples();
    FaqsMissCouples();
  }

  // ------------------------------------------------------- the search dialog

  /** The quarter-second pause before a query is searched, in milliseconds. */
  const DebounceMs := 300

  /** What the results pane shows. */
  datatype Pane = Hidden | Prompt | Searching | NoResults | Listing(entries: seq<Entry>)

  /** The dialog's state: the query typed, the results last settled on,
      the loading flag and the pending timer, which carries the query it
      will search. */
  class SearchBox {
    /** The entries searched: `searchData`, fixed when the dialog is made. */
    const catalog: seq<Entry>
    var isOpen: bool
    var query: string
    var results: seq<Entry>
    var isLoading: bool
    var pending: Option<string>

    /** At most one timer runs, for the current query, and only for one
        long enough to search; with no timer running the results are those
        of the current query. A stale `isLoading` may survive a query
        shortened while a timer ran, but the prompt hides it. */
    ghost predicate Valid()
      reads this
    {
      && (pending.Some? ==> pending.value == query && JsLength(query) >= MinQueryLength && isLoading)
      && (pending.None? ==> results == ResultsIn(catalog, query))
      && (pending.None? && JsLength(query) >= MinQueryLength ==> !isLoading)
    }

    /** The results pane, in the order the dialog tests its cases. */
    function View(): (p: Pane)
      reads this
      ensures p.Listing? ==> p.entries == results && results != []
    {
      if !isOpen then Hidden
      else if JsLength(query) < MinQueryLength then Prompt
      else if isLoading then Searching
      else if |results| == 0 then NoResults
      else Listing(results)
    }

    constructor (open: bool)
      ensures Valid()
      ensures catalog == SearchData
      ensures isOpen == open && query == "" && results == [] && !isLoading && pending.None?
    {
      catalog := SearchData;
      isOpen := open;
      query := "";
      results := [];
      isLoading := false;
      pending := None;
    }

    method SetOpen(open: bool)
      requires Valid()
      modifies this
      ensures Valid()
      ensures isOpen == open && query == old(query) && results == old(results)
      ensures isLoading == old(isLoading) && pending == old(pending)
    {
      isOpen := open;
    }

    /** The input's `onChange`. A new query cancels the running timer; a
        short one clears the results, a long one sets the loading flag and
        starts a timer for itself. The same query again does not re-run
        the effect. */
    method Type(q: string)
      requires Valid()
      modifies this
      ensures Valid()
      ensures !old(isOpen) || q == old(query) ==> unchanged(this)
      ensures old(isOpen) && q != old(query) ==> query == q
      ensures old(isOpen) && q != old(query) && JsLength(q) < MinQueryLength ==>
        && results == [] && pending.None? && isLoading == old(isLoading)
      ensures old(isOpen) && q != old(query) && JsLength(q) >= MinQueryLength ==>
        && results == old(results) && isLoading && pending == Some(q)
      ensures isOpen == old(isOpen)
    {
      if isOpen && q != query {
        query := q;
        pending := None;
        if JsLength(q) < MinQueryLength {
          results := [];
        } else {
          isLoading := true;
          pending := Some(q);
        }
      }
    }

    /** The timer fires: the results become those of the query it was
        started for, which is still the current one. */
    method TimerElapsed()
      requires Valid()
      modifies this
      ensures Valid()
      ensures old(pending).None? ==> unchanged(this)
      ensures old(pending).Some? ==> results == ResultsIn(catalog, query) && !isLoading && pending.None?
      ensures isOpen == old(isOpen) && query == old(query)
    {
      if pending.Some? {
        var r := ResultsIn(catalog, pending.value);
        results, isLoading, pending := r, false, None;
      }
    }
  }

  /** Once no timer is running, an open dialog shows the prompt, the
      empty-result notice or exactly the matches of its query. */
  lemma SettledView(b: SearchBox)
    requires b.Valid() && b.isOpen && b.pending.None?
    ensures JsLength(b.query) < MinQueryLength ==> b.View() == Prompt
    ensures JsLength(b.query) >= MinQueryLength && ResultsIn(b.catalog, b.query) == [] ==> b.View() == NoResults
    ensures JsLength(b.query) >= MinQueryLength && ResultsIn(b.catalog, b.query) != [] ==>
      b.View() == Listing(ResultsIn(b.catalog, b.query))
  {
  }

  /** Typing "f", "fa", "faq" in quick succession searches only once, for
      the last query, and lists the five questions. */
  method TypeFaq(b: SearchBox)
    requires b.Valid() && b.isOpen && b.query == "" && b.catalog == SearchData
    modifies b
    ensures b.Valid() && b.query == "faq"
    ensures b.View() == Listing(FaqEntries)
  {
    b.Type("f");
    b.Type("fa");
    assert b.pending == Some("fa");
    b.Type("faq");
    assert b.pending == Some("faq");
    b.TimerElapsed();
    FaqExample();
    assert b.results == FaqEntries;
  }
}
