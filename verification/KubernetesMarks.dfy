/** When a manifest splits back into its documents: every mark inside a document cuts it once more. */
module KubernetesMarks {
  import opened Common
  import opened Text
  import opened Kubernetes
  import opened KubernetesFacts
  import opened Terraform

  lemma FitsOnTheLeft(a: string, rest: string, mark: string, p: nat)
    requires p + |mark| <= |a|
    ensures OccursAt(a + rest, mark, p) <==> OccursAt(a, mark, p)
  {
    assert (a + rest)[p..][..|mark|] == a[p..][..|mark|];
  }

  lemma NeverAcross(a: string, rest: string, mark: string, p: nat)
    requires rest != "" && rest[0] !in mark && p <= |a| < p + |mark|
    ensures !OccursAt(a + rest, mark, p) && !OccursAt(a, mark, p)
  {
    if OccursAt(a + rest, mark, p) {
      SpannedChar(a + rest, mark, p, |a|);
    }
  }

  lemma FitsOnTheRight(a: string, b: string, mark: string, p: nat)
    requires |a| < p <= |a| + 1 + |b|
    ensures OccursAt(a + ("\n" + b), mark, p) <==> OccursAt(b, mark, p - |a| - 1)
  {
    assert (a + ("\n" + b))[p..] == b[p - |a| - 1..];
  }

  /** A newline is in no mark, so each occurrence lies on one side of it. */
  lemma OnOneSide(a: string, b: string, mark: string, p: nat)
    requires mark != "" && '\n' !in mark && p <= |a| + 1 + |b|
    ensures OccursAt(a + ("\n" + b), mark, p) <==>
            if p <= |a| then OccursAt(a, mark, p) else OccursAt(b, mark, p - |a| - 1)
  {
    if p > |a| {
      FitsOnTheRight(a, b, mark, p);
    } else if p + |mark| <= |a| {
      FitsOnTheLeft(a, "\n" + b, mark, p);
    } else {
      NeverAcross(a, "\n" + b, mark, p);
    }
  }

  lemma FirstIs(t: string, mark: string, p: nat)
    requires mark != "" && p <= |t| && OccursAt(t, mark, p) && forall q: nat | q < p :: !OccursAt(t, mark, q)
    ensures IndexOf(t, mark) == p
  {
  }

  lemma FirstOnTheLeft(a: string, b: string, mark: string)
    requires mark != "" && '\n' !in mark && Contains(a, mark)
    ensures IndexOf(a + ("\n" + b), mark) == IndexOf(a, mark) && IndexOf(a, mark) + |mark| <= |a|
  {
    var i := IndexOf(a, mark);
    assert |mark| <= |a[i..]|;
    forall p: nat | p <= i ensures OccursAt(a + ("\n" + b), mark, p) <==> OccursAt(a, mark, p) {
      OnOneSide(a, b, mark, p);
    }
    FirstIs(a + ("\n" + b), mark, i);
  }

  lemma FirstOnTheRight(a: string, b: string, mark: string)
    requires mark != "" && '\n' !in mark && !Contains(a, mark)
    ensures IndexOf(a + ("\n" + b), mark) == if Contains(b, mark) then |a| + 1 + IndexOf(b, mark) else -1
  {
    var t := a + ("\n" + b);
    forall p: nat | p <= |t|
      ensures OccursAt(t, mark, p) <==> p > |a| && OccursAt(b, mark, p - |a| - 1)
    {
      OnOneSide(a, b, mark, p);
    }
    if Contains(b, mark) {
      FirstIs(t, mark, |a| + 1 + IndexOf(b, mark));
    }
  }

  /** What follows the first mark. */
  function Remainder(t: string, mark: string): string
    requires Contains(t, mark)
  {
    t[IndexOf(t, mark) + |mark|..]
  }

  lemma OneCut(t: string, mark: string)
    requires mark != "" && Contains(t, mark)
    ensures |Split(t, mark)| == 1 + |Split(Remainder(t, mark), mark)|
  {
  }

  lemma Uncut(t: string, mark: string)
    requires mark != "" && !Contains(t, mark)
    ensures |Split(t, mark)| == 1
  {
  }

  lemma TailOfThree(a: string, b: string, cut: nat)
    requires cut <= |a|
    ensures (a + b)[cut..] == a[cut..] + b
  {
  }

  lemma TailOnTheRight(a: string, b: string, cut: nat)
    requires cut <= |b|
    ensures |a| + 1 + cut <= |a + ("\n" + b)| && (a + ("\n" + b))[|a| + 1 + cut..] == b[cut..]
  {
  }

  lemma RemainderOnTheLeft(a: string, b: string, mark: string)
    requires mark != "" && '\n' !in mark && Contains(a, mark)
    ensures Contains(a + ("\n" + b), mark)
    ensures Remainder(a + ("\n" + b), mark) == Remainder(a, mark) + ("\n" + b)
    ensures |Remainder(a, mark)| < |a|
  {
    FirstOnTheLeft(a, b, mark);
    TailOfThree(a, "\n" + b, IndexOf(a, mark) + |mark|);
  }

  lemma RemainderOnTheRight(a: string, b: string, mark: string)
    requires mark != "" && '\n' !in mark && !Contains(a, mark) && Contains(b, mark)
    ensures Contains(a + ("\n" + b), mark)
    ensures Remainder(a + ("\n" + b), mark) == Remainder(b, mark)
  {
    FirstOnTheRight(a, b, mark);
    TailOnTheRight(a, b, IndexOf(b, mark) + |mark|);
  }

  lemma NoneOnEitherSide(a: string, b: string, mark: string)
    requires mark != "" && '\n' !in mark && !Contains(a, mark) && !Contains(b, mark)
    ensures !Contains(a + ("\n" + b), mark)
  {
    FirstOnTheRight(a, b, mark);
  }

  /** Pieces on both sides of a newline, one of them shared. */
  lemma {:induction false} PiecesAcross(a: string, b: string, mark: string)
    requires mark != "" && '\n' !in mark
    ensures |Split(a + ("\n" + b), mark)| == |Split(a, mark)| + |Split(b, mark)| - 1
    decreases |a|
  {
    if Contains(a, mark) {
      RemainderOnTheLeft(a, b, mark);
      OneCut(a, mark);
      OneCut(a + ("\n" + b), mark);
      PiecesAcross(Remainder(a, mark), b, mark);
    } else if Contains(b, mark) {
      RemainderOnTheRight(a, b, mark);
      Uncut(a, mark);
      OneCut(b, mark);
      OneCut(a + ("\n" + b), mark);
    } else {
      NoneOnEitherSide(a, b, mark);
      Uncut(a, mark);
      Uncut(b, mark);
      Uncut(a + ("\n" + b), mark);
    }
  }

  lemma Alone(mark: string)
    requires mark != ""
    ensures |Split("", mark)| == 1 && |Split(mark, mark)| == 2
  {
    Uncut("", mark);
    assert mark[0..] == mark && OccursAt(mark, mark, 0);
    FirstIs(mark, mark, 0);
    assert mark[|mark|..] == "";
    OneCut(mark, mark);
  }

  lemma LinkSides(b: string, mark: string, more: string)
    ensures Link(b, mark, more) == b + ("\n" + (mark + ("\n" + more)))
  {
  }

  lemma LinkPieces(b: string, mark: string, more: string)
    requires mark != "" && '\n' !in mark
    ensures |Split(Link(b, mark, more), mark)| == |Split(b, mark)| + |Split(more, mark)|
  {
    LinkSides(b, mark, more);
    PiecesAcross(b, mark + ("\n" + more), mark);
    PiecesAcross(mark, more, mark);
    Alone(mark);
  }

  /** How many pieces the bodies split into, each by itself. */
  function Pieces(bodies: seq<string>, mark: string): nat
    requires mark != ""
  {
    if bodies == [] then 0 else |Split(bodies[0], mark)| + Pieces(bodies[1..], mark)
  }

  lemma {:induction false} JoinedPieces(bodies: seq<string>, mark: string)
    requires mark != "" && '\n' !in mark && bodies != []
    ensures |Split(Joined(bodies, mark), mark)| == Pieces(bodies, mark)
  {
    if |bodies| == 1 {
      assert bodies[1..] == [];
    } else {
      JoinedPieces(bodies[1..], mark);
      LinkPieces(bodies[0], mark, Joined(bodies[1..], mark));
    }
  }

  lemma LeadAddsNone(lead: string, t: string, mark: string)
    requires mark != "" && '\n' !in mark && lead in {"", "\n"}
    ensures |Split(lead + t, mark)| == |Split(t, mark)|
  {
    if lead == "" {
      assert lead + t == t;
    } else {
      assert lead + t == "" + ("\n" + t);
      PiecesAcross("", t, mark);
      Alone(mark);
    }
  }

  lemma OnePiece(t: string, mark: string)
    requires mark != ""
    ensures |Split(t, mark)| == 1 <==> !Contains(t, mark)
  {
    if Contains(t, mark) {
      OneCut(t, mark);
    }
  }

  lemma {:induction false} OnePieceEach(bodies: seq<string>, mark: string)
    requires mark != ""
    ensures Pieces(bodies, mark) >= |bodies|
    ensures Pieces(bodies, mark) == |bodies| <==> NoMark(bodies, mark)
  {
    if bodies != [] {
      OnePieceEach(bodies[1..], mark);
      OnePiece(bodies[0], mark);
      assert forall b :: b in bodies <==> b == bodies[0] || b in bodies[1..];
    }
  }

  /** Splitting a joined text gives its bodies back exactly when no body holds the mark: each mark inside one
      adds a piece. */
  lemma SplitJoinedExactlyWhen(bodies: seq<string>, mark: string, lead: string)
    requires mark != "" && '\n' !in mark && bodies != [] && lead in {"", "\n"}
    ensures |Split(lead + Joined(bodies, mark), mark)| == Pieces(bodies, mark) >= |bodies|
    ensures TrimmedPieces(Split(lead + Joined(bodies, mark), mark)) == TrimmedPieces(bodies) <==> NoMark(bodies, mark)
  {
    LeadAddsNone(lead, Joined(bodies, mark), mark);
    JoinedPieces(bodies, mark);
    OnePieceEach(bodies, mark);
    if NoMark(bodies, mark) {
      SplitJoined(bodies, mark, lead);
    }
  }

  /** The manifest of a canvas splits back into its documents exactly when none holds the mark. */
  lemma ManifestSplitsExactlyWhen(nodes: seq<Node>)
    requires Bodies(Slots(nodes)) != []
    ensures TrimmedPieces(Split(Manifest(nodes), MARK)) ==
            (if StartsWithObject(Slots(nodes)) then [] else [""]) + TrimmedPieces(Bodies(Slots(nodes)))
       <==> NoMark(Bodies(Slots(nodes)), MARK)
  {
    var bodies := Bodies(Slots(nodes));
    var joined := Joined(bodies, MARK);
    AssembledIsJoined(Slots(nodes));
    if StartsWithObject(Slots(nodes)) {
      SplitJoinedExactlyWhen(bodies, MARK, "");
      assert "" + joined == joined && [] + TrimmedPieces(bodies) == TrimmedPieces(bodies);
    } else {
      SplitJoinedExactlyWhen(bodies, MARK, "\n");
      StartsBlank(joined);
      TrimmedCons("\n", Split("\n" + joined, MARK));
      SameTails("", TrimmedPieces(Split("\n" + joined, MARK)), TrimmedPieces(bodies));
    }
  }

  lemma SameTails<T>(x: T, xs: seq<T>, ys: seq<T>)
    ensures [x] + xs == [x] + ys <==> xs == ys
  {
    assert ([x] + xs)[1..] == xs && ([x] + ys)[1..] == ys;
  }

  lemma HeldInside(a: string, b: string, c: string, mark: string)
    requires Contains(b, mark)
    ensures Contains(a + b + c, mark)
  {
    var p: nat :| p <= |b| && OccursAt(b, mark, p);
    assert (a + b + c)[|a| + p..] == b[p..] + c;
    assert OccursAt(a + b + c, mark, |a| + p);
  }

  lemma HeldAtTheEnd(a: string, b: string, mark: string)
    requires Contains(b, mark)
    ensures Contains(a + b, mark)
  {
    HeldInside(a, b, "", mark);
    assert a + b + "" == a + b;
  }

  /** A mark in a stored value, such as "a---b", is in the document. */
  lemma ValueInDocument(d: Doc)
    requires (d.content.ConfigMap? || d.content.Secret?) && Contains(d.content.value, MARK)
    ensures Contains(Render(d), MARK)
  {
    if d.content.ConfigMap? {
      HeldInside("data:\n  " + d.content.key + ": \"", d.content.value, "\"\n", MARK);
    } else {
      HeldInside("type: Opaque\ndata:\n  " + d.content.key + ": \"", d.content.value, "\"\n", MARK);
    }
    var before := (if d.content.Deployment? then "apps/v1" else "v1") + "\nkind: " + KindName(d.content) +
      "\nmetadata:\n  name: " + d.name + "\n";
    HeldAtTheEnd(before, Details(d), MARK);
    HeldAtTheEnd("apiVersion: ", AfterVersion(d), MARK);
  }

  /** So the importer cuts the one document of such a canvas in two or more. */
  lemma ValueCutsManifest(n: Node, d: Doc)
    requires n.tech == "Kubernetes" && !n.custom && ToDoc(n) == Some(d)
    requires (d.content.ConfigMap? || d.content.Secret?) && Contains(d.content.value, MARK)
    ensures |Split(Manifest([n]), MARK)| >= 2
  {
    ValueInDocument(d);
    AssembledGrows([], Some(Render(d)));
    assert Slots([n]) == [] + [Some(Render(d))] && "" + "" + Render(d) == Render(d);
    OnePiece(Render(d), MARK);
  }
}
