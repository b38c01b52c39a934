/** The review page's client-side state: one decision per proposed change,
    toggled one at a time or set all at once, counted on the badges, and
    projected into the submitted result. The DOM rendering is not modelled. */
module ReviewPage {
  import opened Text
  import opened Json
  import opened Wrappers

  /** A proposed change as the page receives it. */
  datatype Change = Change(paragraphIndex: int, original: string, suggested: string, instruction: string)

  /** The state of one change: `'pending' | 'accepted' | 'rejected'`. */
  datatype Decision = Pending | Accepted | Rejected {
    function Name(): string {
      match this
      case Pending => "pending"
      case Accepted => "accepted"
      case Rejected => "rejected"
    }
  }

  /** `setDecision`'s rule: choosing the current state again returns to pending. */
  function Toggle(current: Decision, status: Decision): Decision {
    if current == status then Pending else status
  }

  /** Pressing the same button twice from pending, or from the state that button
      sets, comes back to where it started. */
  lemma ToggleTwice(current: Decision, status: Decision)
    requires status != Pending && (current == Pending || current == status)
    ensures Toggle(Toggle(current, status), status) == current
  {
  }

  /** A toggle always lands on the chosen state or on pending. */
  lemma ToggleResult(current: Decision, status: Decision)
    ensures status != Pending ==> (Toggle(current, status) == status <==> current != status)
    ensures Toggle(current, status) == Pending <==> (current == status || status == Pending)
  {
  }

  /** The number of entries of `ds` equal to `d`: `decisions.filter(x => x === d).length`. */
  function Count(ds: seq<Decision>, d: Decision): (n: nat)
    ensures n <= |ds|
    ensures n == 0 <==> forall i :: 0 <= i < |ds| ==> ds[i] != d
    decreases |ds|
  {
    if ds == [] then 0 else Count(ds[..|ds| - 1], d) + (if ds[|ds| - 1] == d then 1 else 0)
  }

  /** The three badge counts partition the changes. */
  lemma {:induction false} CountsPartition(ds: seq<Decision>)
    ensures Count(ds, Pending) + Count(ds, Accepted) + Count(ds, Rejected) == |ds|
  {
    if ds != [] {
      CountsPartition(ds[..|ds| - 1]);
    }
  }

  /** After every entry is set to `d`, all are counted as `d` and none as anything else. */
  lemma {:induction false} CountUniform(n: nat, d: Decision, e: Decision)
    ensures Count(seq(n, _ => d), e) == if d == e then n else 0
  {
    if n > 0 {
      assert seq(n, _ => d)[..n - 1] == seq(n - 1, _ => d);
      CountUniform(n - 1, d, e);
    }
  }

  /** Changing one entry moves one unit from its old count to its new one. */
  lemma {:induction false} CountUpdate(ds: seq<Decision>, i: nat, v: Decision, d: Decision)
    requires i < |ds|
    ensures Count(ds[i := v], d) + (if ds[i] == d then 1 else 0) == Count(ds, d) + (if v == d then 1 else 0)
    decreases |ds|
  {
    var last := |ds| - 1;
    assert ds[i := v][..last] == if i == last then ds[..last] else ds[..last][i := v];
    if i < last {
      CountUpdate(ds[..last], i, v, d);
    }
  }

  /** One entry of the submitted `decisions` list. */
  datatype SubmittedDecision = SubmittedDecision(paragraphIndex: int, original: string, suggested: string, accepted: bool)
  {
    function ToJson(): Json {
      JObject([("paragraph_index", JNum(paragraphIndex)), ("original", JStr(original)),
               ("suggested", JStr(suggested)), ("accepted", JBool(accepted))])
    }
  }

  /** `changes.map((change, i) => ...)` in `submitReview`: one entry per change,
      in order, copying the change and reporting it accepted exactly when its
      decision is `Accepted` (a pending change is reported as not accepted). */
  function Submitted(changes: seq<Change>, decisions: seq<Decision>): (r: seq<SubmittedDecision>)
    requires |decisions| == |changes|
    ensures |r| == |changes|
    ensures forall i :: 0 <= i < |r| ==>
      && r[i].paragraphIndex == changes[i].paragraphIndex
      && r[i].original == changes[i].original
      && r[i].suggested == changes[i].suggested
      && (r[i].accepted <==> decisions[i] == Accepted)
    decreases |changes|
  {
    if changes == [] then []
    else
      var n := |changes| - 1;
      var c := changes[n];
      Submitted(changes[..n], decisions[..n]) + [SubmittedDecision(c.paragraphIndex, c.original, c.suggested, decisions[n] == Accepted)]
  }

  /** The entries as the JSON objects `JSON.stringify` sends. */
  function Items(entries: seq<SubmittedDecision>): (r: seq<Json>)
    ensures |r| == |entries| && forall i :: 0 <= i < |r| ==> r[i] == entries[i].ToJson()
  {
    seq(|entries|, i requires 0 <= i < |entries| => entries[i].ToJson())
  }

  /** The review page, with the change list it was generated for. */
  class ReviewPage {
    const changes: seq<Change>
    var decisions: seq<Decision>

    ghost predicate Valid()
      reads this
    {
      |decisions| == |changes|
    }

    /** The page starts with every change pending. */
    constructor (changes: seq<Change>)
      ensures this.changes == changes && decisions == seq(|changes|, _ => Pending)
      ensures Valid()
    {
      this.changes := changes;
      decisions := seq(|changes|, _ => Pending);
    }

    /** `setDecision(index, status)`: entry `index` toggles, the others stay. */
    method SetDecision(index: nat, status: Decision)
      requires Valid() && index < |decisions|
      modifies this
      ensures Valid()
      ensures decisions == old(decisions)[index := Toggle(old(decisions)[index], status)]
    {
      decisions := decisions[index := if decisions[index] == status then Pending else status];
    }

    /** `acceptAll()`. */
    method AcceptAll()
      requires Valid()
      modifies this
      ensures Valid() && decisions == seq(|changes|, _ => Accepted)
    {
      decisions := seq(|decisions|, _ => Accepted);
    }

    /** `rejectAll()`. */
    method RejectAll()
      requires Valid()
      modifies this
      ensures Valid() && decisions == seq(|changes|, _ => Rejected)
    {
      decisions := seq(|decisions|, _ => Rejected);
    }

    /** `resetAll()`. */
    method ResetAll()
      requires Valid()
      modifies this
      ensures Valid() && decisions == seq(|changes|, _ => Pending)
    {
      decisions := seq(|decisions|, _ => Pending);
    }

    /** `updateBadges()`: the pending, accepted and rejected counts, which always
        add up to the number of changes. */
    function Badges(): (b: (nat, nat, nat))
      requires Valid()
      reads this
      ensures b.0 + b.1 + b.2 == |changes|
    {
      CountsPartition(decisions);
      (Count(decisions, Pending), Count(decisions, Accepted), Count(decisions, Rejected))
    }

    /** The three badge texts: each count followed by the name of its state. */
    function BadgeLabels(): (labels: seq<string>)
      requires Valid()
      reads this
      ensures |labels| == 3
      ensures labels[0] == NatToString(Count(decisions, Pending)) + " " + Pending.Name()
      ensures labels[1] == NatToString(Count(decisions, Accepted)) + " " + Accepted.Name()
      ensures labels[2] == NatToString(Count(decisions, Rejected)) + " " + Rejected.Name()
    {
      var b := Badges();
      [NatToString(b.0) + " " + Pending.Name(), NatToString(b.1) + " " + Accepted.Name(),
       NatToString(b.2) + " " + Rejected.Name()]
    }

    /** The body `submitReview()` posts. */
    function SubmitPayload(): (j: Json)
      requires Valid()
      reads this
      ensures Get(j, "status") == Some(JStr("submitted"))
      ensures Get(j, "decisions") == Some(JArray(Items(Submitted(changes, decisions))))
      ensures |Get(j, "decisions").value.items| == |changes|
    {
      var items := Items(Submitted(changes, decisions));
      GetObject2("status", JStr("submitted"), "decisions", JArray(items));
      Object2("status", JStr("submitted"), "decisions", JArray(items))
    }
  }

  /** The body `cancelReview()` posts. */
  function CancelPayload(): (j: Json)
    ensures Get(j, "status") == Some(JStr("cancelled")) && Get(j, "decisions") == Some(JArray([]))
    ensures j.JObject? && |j.members| == 2
  {
    GetObject2("status", JStr("cancelled"), "decisions", JArray([]));
    Object2("status", JStr("cancelled"), "decisions", JArray([]))
  }

  /** After accept-all every change is submitted as accepted; after reject-all
      or reset-all none is. */
  lemma BulkSubmitted(changes: seq<Change>, d: Decision)
    ensures var r := Submitted(changes, seq(|changes|, _ => d));
      forall i :: 0 <= i < |r| ==> (r[i].accepted <==> d == Accepted)
  {
  }

  /** Toggling one change alters only that change's submitted entry. */
  lemma SetDecisionSubmitted(changes: seq<Change>, decisions: seq<Decision>, index: nat, status: Decision)
    requires |decisions| == |changes| && index < |changes|
    ensures var before := Submitted(changes, decisions);
      var after := Submitted(changes, decisions[index := Toggle(decisions[index], status)]);
      && (forall i :: 0 <= i < |changes| && i != index ==> after[i] == before[i])
      && (after[index].accepted <==> Toggle(decisions[index], status) == Accepted)
  {
  }
}
