/** Removing the driver's start-up taint from a node that others are editing at the same time. */
module Taints {
  import opened Parameters
  import opened Filtering

  const AGENT_NOT_READY := "fsx.openzfs.csi.aws.com/agent-not-ready"
  const TAINTS := "/spec/taints"

  datatype Taint = Taint(key: string, value: string, effect: string, timeAdded: Option<string>)

  /** A member of the node's JSON document. */
  datatype Member = Null | List(taints: seq<Taint>) | Other(json: string)

  /** The node's document: the members at the paths that have one. */
  type Document = map<string, Member>

  // ---------- JSON Patch, RFC 6902 ----------

  datatype Operation = Test(path: string, value: Member) | Replace(path: string, value: Member)

  /** Sections 4.6 and 4.3: the target has to exist, and for a test to be equal. */
  function ApplyOperation(doc: Document, op: Operation): Option<Document> {
    if op.path !in doc then None
    else match op
      case Test(path, value) => if doc[path] == value then Some(doc) else None
      case Replace(path, value) => Some(doc[path := value])
  }

  /** Section 5: if one operation fails, the whole patch has failed. */
  function ApplyPatch(doc: Document, patch: seq<Operation>): Option<Document> {
    if patch == [] then Some(doc)
    else match ApplyOperation(doc, patch[0])
      case None => None
      case Some(next) => ApplyPatch(next, patch[1..])
  }

  // ---------- The node ----------

  /** The taints as the client library decodes them. */
  function TaintsOf(doc: Document): seq<Taint> {
    if TAINTS in doc && doc[TAINTS].List? then doc[TAINTS].taints else []
  }

  /** A list of taints as Go marshals it; a list to which nothing was appended is null. */
  function Marshal(taints: seq<Taint>): Member {
    if taints == [] then Null else List(taints)
  }

  /** The API server stores a typed node: a list without elements is left out. */
  function Normal(doc: Document): Document {
    if TaintsOf(doc) == [] then doc - {TAINTS} else doc
  }

  predicate IsNormal(doc: Document) {
    TAINTS in doc ==> doc[TAINTS].List? && doc[TAINTS].taints != []
  }

  function WithTaints(doc: Document, taints: seq<Taint>): Document {
    if taints == [] then doc - {TAINTS} else doc[TAINTS := List(taints)]
  }

  predicate Foreign(t: Taint) {
    t.key != AGENT_NOT_READY
  }

  /** The taints that are not the driver's, in their order. */
  function Keep(taints: seq<Taint>): seq<Taint> {
    Filter(taints, Foreign)
  }

  function PatchFor(seen: seq<Taint>): seq<Operation> {
    [Test(TAINTS, Marshal(seen)), Replace(TAINTS, Marshal(Keep(seen)))]
  }

  // ---------- What filtering does ----------

  /** Others' taints stay as often as they were there and the driver's go; nothing goes exactly if none was there. */
  lemma KeepIsFilter(taints: seq<Taint>, t: Taint)
    ensures multiset(Keep(taints))[t]
      == if t.key == "fsx.openzfs.csi.aws.com/agent-not-ready" then 0 else multiset(taints)[t]
    ensures |Keep(taints)| == |taints|
      <==> forall x | x in taints :: x.key != "fsx.openzfs.csi.aws.com/agent-not-ready"
    ensures |Keep(taints)| == |taints| ==> Keep(taints) == taints
  {
    FilterCounts(taints, Foreign, t);
    FilterLength(taints, Foreign);
  }

  /** The list is gone through taint by taint, so those that stay keep their order. */
  lemma KeepIsPiecewise(a: seq<Taint>, b: seq<Taint>, t: Taint)
    ensures Keep(a + b) == Keep(a) + Keep(b)
    ensures Keep([t]) == if t.key == "fsx.openzfs.csi.aws.com/agent-not-ready" then [] else [t]
  {
    FilterConcat(a, b, Foreign);
    assert [] + [t] == [t];
    FilterNext([], t, Foreign);
  }

  lemma KeptAreForeign(taints: seq<Taint>)
    ensures forall t | t in Keep(taints) :: t.key != AGENT_NOT_READY
  {
    forall t | t in Keep(taints) ensures t.key != AGENT_NOT_READY {
      FilterMembers(taints, Foreign, t);
    }
  }

  /** A patch made for the list that was seen applies exactly if the node still has that list, and then it filters
      that list and changes nothing else. */
  lemma PatchFiltersOrFails(doc: Document, seen: seq<Taint>)
    requires IsNormal(doc) && seen != []
    ensures forall op | op in PatchFor(seen) :: op.path == "/spec/taints"
    ensures ApplyPatch(doc, PatchFor(seen)).Some? <==> TaintsOf(doc) == seen
    ensures TaintsOf(doc) == seen ==>
      Normal(ApplyPatch(doc, PatchFor(seen)).value) == WithTaints(doc, Keep(TaintsOf(doc)))
  {
    var patch := PatchFor(seen);
    assert ApplyPatch(doc, patch) == match ApplyOperation(doc, patch[0])
      case None => None
      case Some(next) => ApplyPatch(next, patch[1..]);
    assert patch[1..] == [patch[1]];
    if TaintsOf(doc) == seen {
      var replaced := doc[TAINTS := Marshal(Keep(seen))];
      assert ApplyPatch(doc, [patch[1]]) == ApplyPatch(replaced, [patch[1]][1..]);
      assert ApplyPatch(doc, patch) == Some(replaced);
    }
  }

  // ---------- The other writers ----------

  datatype Edit = Add(taint: Taint) | Remove(key: string, effect: string)
    | Set(taints: seq<Taint>) | SetMember(path: string, json: string)

  function Without(taints: seq<Taint>, key: string, effect: string): seq<Taint> {
    Filter(taints, (t: Taint) => t.key != key || t.effect != effect)
  }

  function EditTaints(taints: seq<Taint>, e: Edit): seq<Taint> {
    match e
    case Add(t) => taints + [t]
    case Remove(key, effect) => Without(taints, key, effect)
    case Set(ts) => ts
    case SetMember(_, _) => taints
  }

  function ApplyEdit(doc: Document, e: Edit): Document {
    if e.SetMember? then (if e.path == TAINTS then doc else doc[e.path := Other(e.json)])
    else WithTaints(doc, EditTaints(TaintsOf(doc), e))
  }

  function ApplyEdits(doc: Document, edits: seq<Edit>): Document {
    if edits == [] then doc else ApplyEdit(ApplyEdits(doc, edits[..|edits| - 1]), edits[|edits| - 1])
  }

  /** What a writer who does not care for the driver's taint sees of the node. */
  datatype NodeView = NodeView(taints: seq<Taint>, others: Document)

  function View(doc: Document): NodeView {
    NodeView(Keep(TaintsOf(doc)), doc - {TAINTS})
  }

  /** The same edit, made on what is seen. */
  function EditView(v: NodeView, e: Edit): NodeView {
    NodeView(Keep(EditTaints(v.taints, e)),
             if e.SetMember? && e.path != TAINTS then v.others[e.path := Other(e.json)] else v.others)
  }

  function EditViews(v: NodeView, edits: seq<Edit>): NodeView {
    if edits == [] then v else EditView(EditViews(v, edits[..|edits| - 1]), edits[|edits| - 1])
  }

  // ---------- One attempt of the driver ----------

  datatype Fate = Delivered | RequestLost | ReplyLost

  /** What others do, and what goes wrong, while the driver makes one attempt. */
  datatype Attempt = Attempt(before: seq<Edit>, getSucceeds: bool, between: seq<Edit>, fate: Fate)

  const QUIET := Attempt([], true, [], Delivered)

  datatype Effect = Effect(doc: Document, ok: bool, edits: seq<Edit>)

  /** The node after the attempt, whether the driver is content, and the edits that took place meanwhile. */
  function AttemptEffect(doc: Document, a: Attempt): Effect {
    var seenDoc := ApplyEdits(doc, a.before);
    var seen := TaintsOf(seenDoc);
    if !a.getSucceeds then Effect(seenDoc, false, a.before)
    else if |Keep(seen)| == |seen| then Effect(seenDoc, true, a.before)
    else
      var now := ApplyEdits(seenDoc, a.between);
      var patched := ApplyPatch(now, PatchFor(seen));
      if a.fate.RequestLost? || patched.None? then Effect(now, false, a.before + a.between)
      else Effect(Normal(patched.value), a.fate.Delivered?, a.before + a.between)
  }

  /** The node as the API server holds it. */
  class Node {
    var doc: Document

    constructor (doc: Document)
      ensures this.doc == doc
    {
      this.doc := doc;
    }

    method Edits(edits: seq<Edit>)
      modifies this
      ensures doc == ApplyEdits(old(doc), edits)
    {
      for i := 0 to |edits|
        invariant doc == ApplyEdits(old(doc), edits[..i])
      {
        assert edits[..i + 1][..i] == edits[..i];
        doc := ApplyEdit(doc, edits[i]);
      }
      assert edits[..|edits|] == edits;
    }

    method Patch(patch: seq<Operation>, fate: Fate) returns (ok: bool)
      modifies this
      ensures var patched := ApplyPatch(old(doc), patch);
              if fate.RequestLost? || patched.None? then doc == old(doc) && !ok
              else doc == Normal(patched.value) && ok == fate.Delivered?
    {
      var patched := ApplyPatch(doc, patch);
      if fate.RequestLost? || patched.None? {
        return false;
      }
      doc := Normal(patched.value);
      ok := fate.Delivered?;
    }
  }

  /** One attempt. Without a node name or a client there is nothing to do and that counts as success. */
  method RemoveNotReadyTaint(nodeNamed: bool, clientAvailable: bool, node: Node, a: Attempt) returns (ok: bool)
    modifies node
    ensures if nodeNamed && clientAvailable
            then node.doc == AttemptEffect(old(node.doc), a).doc && ok == AttemptEffect(old(node.doc), a).ok
            else node.doc == old(node.doc) && ok
    ensures nodeNamed && clientAvailable && IsNormal(old(node.doc)) ==>
      var read := ApplyEdits(old(node.doc), a.before);
      var now := ApplyEdits(read, a.between);
      if !a.getSucceeds then !ok && node.doc == read
      else if forall t | t in TaintsOf(read) :: t.key != "fsx.openzfs.csi.aws.com/agent-not-ready"
      then ok && node.doc == read
      else if a.fate.RequestLost? || TaintsOf(now) != TaintsOf(read) then !ok && node.doc == now
      else ok == a.fate.Delivered? && node.doc == WithTaints(now, Keep(TaintsOf(read)))
  {
    if IsNormal(node.doc) {
      AttemptMeans(node.doc, a);
    }
    if !nodeNamed || !clientAvailable {
      return true;
    }
    node.Edits(a.before);
    if !a.getSucceeds {
      return false;
    }
    var taints := TaintsOf(node.doc);
    var taintsToKeep := [];
    for i := 0 to |taints|
      invariant node.doc == ApplyEdits(old(node.doc), a.before)
      invariant taintsToKeep == Keep(taints[..i])
    {
      FilterNext(taints[..i], taints[i], Foreign);
      assert taints[..i + 1] == taints[..i] + [taints[i]];
      if taints[i].key != AGENT_NOT_READY {
        taintsToKeep := taintsToKeep + [taints[i]];
      }
    }
    assert taints[..|taints|] == taints;
    if |taintsToKeep| == |taints| {
      return true;
    }
    node.Edits(a.between);
    ok := node.Patch([Test(TAINTS, Marshal(taints)), Replace(TAINTS, Marshal(taintsToKeep))], a.fate);
  }

  // ---------- Nobody else's taint is lost ----------

  /** Filtering before an edit or after it comes to the same. */
  lemma KeepEdit(taints: seq<Taint>, e: Edit)
    ensures Keep(EditTaints(taints, e)) == Keep(EditTaints(Keep(taints), e))
  {
    FilterTwice(taints, Foreign);
    match e
    case Add(t) =>
      FilterNext(taints, t, Foreign);
      FilterNext(Keep(taints), t, Foreign);
    case Remove(key, effect) =>
      var other := (t: Taint) => t.key != key || t.effect != effect;
      FiltersCommute(taints, other, Foreign);
      FiltersCommute(Keep(taints), other, Foreign);
    case Set(_) =>
    case SetMember(_, _) =>
  }

  lemma OthersOfWithTaints(doc: Document, taints: seq<Taint>)
    ensures TaintsOf(WithTaints(doc, taints)) == taints
    ensures WithTaints(doc, taints) - {TAINTS} == doc - {TAINTS}
  {
  }

  lemma OthersOfMember(doc: Document, path: string, json: string)
    requires path != TAINTS
    ensures doc[path := Other(json)] - {TAINTS} == (doc - {TAINTS})[path := Other(json)]
  {
  }

  lemma ViewOfEdit(doc: Document, e: Edit)
    ensures View(ApplyEdit(doc, e)) == EditView(View(doc), e)
  {
    KeepEdit(TaintsOf(doc), e);
    if e.SetMember? {
      FilterTwice(TaintsOf(doc), Foreign);
      if e.path != TAINTS {
        OthersOfMember(doc, e.path, e.json);
      }
    } else {
      OthersOfWithTaints(doc, EditTaints(TaintsOf(doc), e));
    }
  }

  /** What is seen after some edits depends on what was seen before, not on the driver's taint. */
  lemma {:induction false} ViewOfEdits(doc: Document, edits: seq<Edit>)
    ensures View(ApplyEdits(doc, edits)) == EditViews(View(doc), edits)
  {
    if edits != [] {
      ViewOfEdits(doc, edits[..|edits| - 1]);
      ViewOfEdit(ApplyEdits(doc, edits[..|edits| - 1]), edits[|edits| - 1]);
    }
  }

  lemma {:induction false} EditsConcat(doc: Document, a: seq<Edit>, b: seq<Edit>)
    ensures ApplyEdits(doc, a + b) == ApplyEdits(ApplyEdits(doc, a), b)
  {
    if b == [] {
      assert a + b == a;
    } else {
      var n := |b| - 1;
      assert (a + b)[..|a| + n] == a + b[..n];
      EditsConcat(doc, a, b[..n]);
    }
  }

  lemma {:induction false} EditsKeepNormal(doc: Document, edits: seq<Edit>)
    requires IsNormal(doc)
    ensures IsNormal(ApplyEdits(doc, edits))
  {
    if edits != [] {
      EditsKeepNormal(doc, edits[..|edits| - 1]);
    }
  }

  /** The driver's patch is invisible in the view. */
  lemma PatchInvisible(doc: Document, seen: seq<Taint>)
    requires IsNormal(doc) && seen != [] && ApplyPatch(doc, PatchFor(seen)).Some?
    ensures View(Normal(ApplyPatch(doc, PatchFor(seen)).value)) == View(doc)
    ensures IsNormal(Normal(ApplyPatch(doc, PatchFor(seen)).value))
    ensures forall t | t in TaintsOf(Normal(ApplyPatch(doc, PatchFor(seen)).value)) :: t.key != AGENT_NOT_READY
  {
    PatchFiltersOrFails(doc, seen);
    FilterTwice(seen, Foreign);
    KeptAreForeign(seen);
    var after := Normal(ApplyPatch(doc, PatchFor(seen)).value);
    assert TaintsOf(after) == Keep(seen);
    assert after - {TAINTS} == doc - {TAINTS};
  }

  /** In one attempt: others see what their own edits alone would have made, whether the patch applied, was stale, or
      its reply was lost; and if the driver is content its taint is gone. */
  lemma AttemptIsInvisible(doc: Document, a: Attempt)
    requires IsNormal(doc)
    ensures var e := AttemptEffect(doc, a);
            && IsNormal(e.doc)
            && View(e.doc) == View(ApplyEdits(doc, e.edits))
            && (e.ok ==> forall t | t in TaintsOf(e.doc) :: t.key != AGENT_NOT_READY)
  {
    var seenDoc := ApplyEdits(doc, a.before);
    var seen := TaintsOf(seenDoc);
    EditsKeepNormal(doc, a.before);
    if a.getSucceeds {
      FilterLength(seen, Foreign);
      if |Keep(seen)| != |seen| {
        var now := ApplyEdits(seenDoc, a.between);
        EditsConcat(doc, a.before, a.between);
        EditsKeepNormal(seenDoc, a.between);
        if ApplyPatch(now, PatchFor(seen)).Some? {
          PatchInvisible(now, seen);
        }
      }
    }
  }

  /** Exactly when an attempt succeeds: the node was read, and either the taint was not there or nobody touched the
      taints before the patch arrived and its reply came back. */
  lemma WhenAttemptsSucceed(doc: Document, a: Attempt)
    requires IsNormal(doc)
    ensures var seen := TaintsOf(ApplyEdits(doc, a.before));
            AttemptEffect(doc, a).ok <==>
              && a.getSucceeds
              && ((forall t | t in seen :: t.key != AGENT_NOT_READY)
                  || (a.fate.Delivered? && TaintsOf(ApplyEdits(doc, a.before + a.between)) == seen))
  {
    var seenDoc := ApplyEdits(doc, a.before);
    var seen := TaintsOf(seenDoc);
    EditsKeepNormal(doc, a.before);
    EditsConcat(doc, a.before, a.between);
    EditsKeepNormal(seenDoc, a.between);
    FilterLength(seen, Foreign);
    if seen != [] {
      PatchFiltersOrFails(ApplyEdits(seenDoc, a.between), seen);
    }
  }

  /** One attempt, case by case: the node is read or not, has the taint or not, and the patch arrives in time or not. */
  lemma AttemptMeans(doc: Document, a: Attempt)
    requires IsNormal(doc)
    ensures var read := ApplyEdits(doc, a.before);
            var now := ApplyEdits(read, a.between);
            AttemptEffect(doc, a) ==
            if !a.getSucceeds then Effect(read, false, a.before)
            else if forall t | t in TaintsOf(read) :: t.key != "fsx.openzfs.csi.aws.com/agent-not-ready"
            then Effect(read, true, a.before)
            else if a.fate.RequestLost? || TaintsOf(now) != TaintsOf(read) then Effect(now, false, a.before + a.between)
            else Effect(WithTaints(now, Keep(TaintsOf(read))), a.fate.Delivered?, a.before + a.between)
  {
    var read := ApplyEdits(doc, a.before);
    EditsKeepNormal(doc, a.before);
    EditsKeepNormal(read, a.between);
    FilterLength(TaintsOf(read), Foreign);
    if TaintsOf(read) != [] {
      PatchFiltersOrFails(ApplyEdits(read, a.between), TaintsOf(read));
    }
  }

  // ---------- The retry loop ----------

  /** What happens in the `i`th attempt; after the script nothing interferes any more. */
  function Scripted(script: seq<Attempt>, i: nat): Attempt {
    if i < |script| then script[i] else QUIET
  }

  /** The node after the first `n` attempts, and the edits others made in them. */
  function After(doc: Document, script: seq<Attempt>, n: nat): (Document, seq<Edit>) {
    if n == 0 then (doc, []) else
      var (d, edits) := After(doc, script, n - 1);
      var e := AttemptEffect(d, Scripted(script, n - 1));
      (e.doc, edits + e.edits)
  }

  lemma {:induction false} AfterIsInvisible(doc: Document, script: seq<Attempt>, n: nat)
    requires IsNormal(doc)
    ensures IsNormal(After(doc, script, n).0)
    ensures View(After(doc, script, n).0) == View(ApplyEdits(doc, After(doc, script, n).1))
  {
    if n > 0 {
      AfterIsInvisible(doc, script, n - 1);
      var (d, edits) := After(doc, script, n - 1);
      var e := AttemptEffect(d, Scripted(script, n - 1));
      AttemptIsInvisible(d, Scripted(script, n - 1));
      EditsConcat(doc, edits, e.edits);
      ViewOfEdits(d, e.edits);
      ViewOfEdits(ApplyEdits(doc, edits), e.edits);
    }
  }

  lemma QuietSucceeds(doc: Document)
    requires IsNormal(doc)
    ensures AttemptEffect(doc, QUIET).ok
  {
    WhenAttemptsSucceed(doc, QUIET);
    assert QUIET.before + QUIET.between == QUIET.before;
  }

  /** Retries until an attempt succeeds: at most once more than there are disturbed attempts. When it returns the
      taint is gone, and to everybody else the node is what their own edits made of it. */
  method TryRemoveNotReadyTaintUntilSucceed(nodeNamed: bool, clientAvailable: bool, node: Node, script: seq<Attempt>)
    returns (attempts: nat)
    requires IsNormal(node.doc)
    modifies node
    ensures 1 <= attempts <= |script| + 1
    ensures !(nodeNamed && clientAvailable) ==> node.doc == old(node.doc) && attempts == 1
    ensures nodeNamed && clientAvailable ==>
      && node.doc == After(old(node.doc), script, attempts).0
      && IsNormal(node.doc)
      && (forall t | t in TaintsOf(node.doc) :: t.key != "fsx.openzfs.csi.aws.com/agent-not-ready")
      && View(node.doc) == View(ApplyEdits(old(node.doc), After(old(node.doc), script, attempts).1))
  {
    attempts := 0;
    while true
      invariant attempts <= |script|
      invariant IsNormal(node.doc)
      invariant node.doc == After(old(node.doc), script, attempts).0
      invariant attempts > 0 ==> nodeNamed && clientAvailable
      decreases |script| + 1 - attempts
    {
      ghost var before := node.doc;
      var ok := RemoveNotReadyTaint(nodeNamed, clientAvailable, node, Scripted(script, attempts));
      AttemptIsInvisible(before, Scripted(script, attempts));
      if attempts == |script| {
        QuietSucceeds(before);
      }
      attempts := attempts + 1;
      if ok {
        AfterIsInvisible(old(node.doc), script, attempts);
        return;
      }
    }
  }
}
