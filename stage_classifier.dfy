/** The five stage labels and the parsing of the stage classifier's reply
    (utils/stage_classifier.py). The call to the language model is not modelled:
    its reply text is the input. */
module StageClassifier {
  import opened Wrappers
  import opened Text

  const Precontemplation: string := "precontemplation"
  const Contemplation: string := "contemplation"
  const Preparation: string := "preparation"
  const Action: string := "action"
  const Maintenance: string := "maintenance"

  /** The fixed order of the stages of change, earliest first. */
  const Order: seq<string> := [Precontemplation, Contemplation, Preparation, Action, Maintenance]

  /** The markers the classifier is told to answer with; `Markers[k]` names `Order[k]`. */
  const Markers: seq<string> := ["CLASS 1:", "CLASS 2:", "CLASS 3:", "CLASS 4:", "CLASS 5:"]

  /** `Order.index(s)`; `None` where Python raises `ValueError`. */
  function IndexOf(s: string): (r: Option<nat>)
    ensures r.Some? <==> s in Order
    ensures r.Some? ==> r.value < |Order| && Order[r.value] == s
  {
    if s == Precontemplation then Some(0)
    else if s == Contemplation then Some(1)
    else if s == Preparation then Some(2)
    else if s == Action then Some(3)
    else if s == Maintenance then Some(4)
    else None
  }

  /** The five labels are pairwise different, so a label has one position. */
  lemma StagesDistinct()
    ensures forall i, j | 0 <= i < j < |Order| :: Order[i] != Order[j]
  {
  }

  /** The if/elif chain over the (stripped) classification text: the first
      marker found, in the order CLASS 1 .. CLASS 5, decides; none found means
      contemplation. */
  function ParseClassification(classification: string): (r: string)
    ensures r in Order
    ensures forall k | 0 <= k < |Markers| ::
              Contains(classification, Markers[k])
              && (forall j | 0 <= j < k :: !Contains(classification, Markers[j]))
              ==> r == Order[k]
    ensures (forall j | 0 <= j < |Markers| :: !Contains(classification, Markers[j]))
            ==> r == Contemplation
  {
    if Contains(classification, "CLASS 1:") then Precontemplation
    else if Contains(classification, "CLASS 2:") then Contemplation
    else if Contains(classification, "CLASS 3:") then Preparation
    else if Contains(classification, "CLASS 4:") then Action
    else if Contains(classification, "CLASS 5:") then Maintenance
    else Contemplation
  }

  /** `classify_stage` once the model has replied with `reply`. */
  function ClassifyStage(reply: string): (r: string)
    ensures r in Order
  {
    ParseClassification(Strip(reply))
  }

  /** A marker begins and ends with a non-space character, so it is found in
      the stripped reply exactly when it is found in the raw reply. */
  lemma {:induction false} StripKeepsMarker(s: string, m: string)
    requires |m| > 0 && !IsSpace(m[0]) && !IsSpace(m[|m| - 1])
    ensures Contains(Strip(s), m) <==> Contains(s, m)
  {
    var lo := LeadingSpaces(s);
    var r := Strip(s);
    if Contains(r, m) {
      var i :| 0 <= i <= |r| - |m| && OccursAt(r, m, i);
      assert r == s[lo..lo + |r|];
      forall k | 0 <= k < |m| ensures s[lo + i + k] == m[k] {
        assert r[i..i + |m|][k] == m[k];
        assert r[i + k] == s[lo + i + k];
      }
      assert s[lo + i..lo + i + |m|] == m;
      assert OccursAt(s, m, lo + i);
    }
    if Contains(s, m) {
      var i :| 0 <= i <= |s| - |m| && OccursAt(s, m, i);
      assert s[i] == m[0];
      assert i >= lo;
      assert s[i + |m| - 1] == m[|m| - 1];
      assert i + |m| <= lo + |r|;
      assert r[i - lo..i - lo + |m|] == s[i..i + |m|];
      assert OccursAt(r, m, i - lo);
    }
  }

  /** Whitespace around the classifier's reply never changes the stage. */
  lemma ClassifyIgnoresSurroundingSpace(reply: string)
    ensures ClassifyStage(reply) == ParseClassification(reply)
  {
    StripKeepsMarker(reply, "CLASS 1:");
    StripKeepsMarker(reply, "CLASS 2:");
    StripKeepsMarker(reply, "CLASS 3:");
    StripKeepsMarker(reply, "CLASS 4:");
    StripKeepsMarker(reply, "CLASS 5:");
  }
}
