/**
 The marketing-medium classifier of the request middleware: the value of the
 `utm_medium` query parameter is mapped onto one of five fixed categories,
 which become the value of the `mkt_medium` tag on the request-duration
 histogram.
 */
module Classifier {

  /** The five categories a request's marketing medium can fall into. */
  datatype Medium = None | Social | Email | Organic | Other

  /** The tag values the classifier can produce. */
  const Labels: set<string> := {"none", "social", "email", "organic", "other"}

  /** The string a category is written as in the `mkt_medium` tag. */
  function Label(m: Medium): (s: string)
    ensures s in Labels
  {
    match m
    case None => "none"
    case Social => "social"
    case Email => "email"
    case Organic => "organic"
    case Other => "other"
  }

  /** The query values the switch names explicitly; everything else is Other. */
  const Known: seq<(string, Medium)> :=
    [("", None), ("social", Social), ("email", Email), ("organic", Organic)]

  /** The switch on the `utm_medium` value. */
  function Classify(q: string): (m: Medium)
    ensures m == None <==> q == ""
    ensures m == Social <==> q == "social"
    ensures m == Email <==> q == "email"
    ensures m == Organic <==> q == "organic"
    ensures m == Other <==> q !in {"", "social", "email", "organic"}
  {
    if q == "" then None
    else if q == "social" then Social
    else if q == "email" then Email
    else if q == "organic" then Organic
    else Other
  }

  /** The tag value attached for a query value: always one of the five labels. */
  function TagValue(q: string): (v: string)
    ensures v in Labels
    ensures q == "" ==> v == "none"
    ensures q in {"social", "email", "organic"} ==> v == q
    ensures q !in {"", "social", "email", "organic"} ==> v == "other"
  {
    Label(Classify(q))
  }

  /**
   An independent reading of the switch as a first-match lookup in the table
   of known values, falling back to Other; it agrees with Classify everywhere.
   */
  method Lookup(q: string) returns (m: Medium)
    ensures m == Classify(q)
  {
    assert forall k :: 0 <= k < |Known| ==> Classify(Known[k].0) == Known[k].1;
    var i := 0;
    while i < |Known|
      invariant 0 <= i <= |Known|
      invariant forall k :: 0 <= k < i ==> Known[k].0 != q
    {
      if Known[i].0 == q {
        return Known[i].1;
      }
      i := i + 1;
    }
    assert q != Known[0].0 && q != Known[1].0 && q != Known[2].0 && q != Known[3].0;
    m := Other;
  }

  /** Different categories are written differently, so the tag determines the category. */
  lemma LabelInjective(m: Medium, n: Medium)
    ensures Label(m) == Label(n) <==> m == n
  {
  }

  /**
   Reading a tag value back as a query value gives the same category, except
   for "none": the query value "none" is not the empty string and is tagged
   "other".
   */
  lemma ClassifyLabel(m: Medium)
    ensures m != None ==> Classify(Label(m)) == m
    ensures Classify(Label(None)) == Other
  {
  }
}
