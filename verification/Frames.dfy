/** What the frames of a run hold: words that memory had below the stack when the calls were made. */
module Frames {
  import opened Ast
  import opened Words
  import opened Machine
  import opened Semantics
  import opened Emission
  import opened Slots
  import opened Residues
  import opened Linking

  /** The machine is about to call the function. */
  ghost predicate Calling(w: World, a: State, f: FnDecl) {
    f in w.p.fns && a.status.Running? && a.pc < |w.img.code| && w.img.code[a.pc] == CallTo(FnLabel(f.name))
  }

  /** What the function's slots will hold: below the return address and the saved frame pointer. */
  function FrameBelow(f: FnDecl, a: State): Store {
    map x | x in FnSlots(f) :: Peek(a.mem, a.rsp - 16 - FnSlots(f)[x])
  }

  /** Every frame that the residue describes is one of the machine's: it comes to a call after s, and the words are
      those its memory has there, where the function's slots will be. Later parts belong to later states. Where the
      residue says nothing, no frame is described. */
  ghost predicate Held(w: World, s: State, z: Residue)
    decreases z
  {
    match z
    case Unspecified => true
    case Zeros => false
    case Fork(x, y) => Held(w, s, x) && exists b :: Reaches(w.img, s, b) && Held(w, b, y)
    case Frame(words, inner) =>
      exists a, f :: Reaches(w.img, s, a) && Calling(w, a, f) && words == FrameBelow(f, a) && Held(w, a, inner)
  }

  lemma {:induction false} HeldEarlier(w: World, s: State, a: State, z: Residue)
    requires Reaches(w.img, s, a) && Held(w, a, z)
    ensures Held(w, s, z)
    decreases z
  {
    hide Reaches, Calling, FrameBelow;
    match z
    case Unspecified =>
    case Fork(x, y) =>
      HeldEarlier(w, s, a, x);
      var b :| Reaches(w.img, a, b) && Held(w, b, y);
      ReachesTrans(w.img, s, a, b);
    case Frame(words, inner) =>
      var b, f :| Reaches(w.img, a, b) && Calling(w, b, f) && words == FrameBelow(f, b) && Held(w, b, inner);
      ReachesTrans(w.img, s, a, b);
  }

  lemma {:induction false} HeldFork(w: World, s: State, x: Residue, b: State, y: Residue)
    requires Held(w, s, x) && Reaches(w.img, s, b) && Held(w, b, y)
    ensures Held(w, s, Fork(x, y))
  {}

  /** Nothing after the first part. */
  lemma {:induction false} HeldFirst(w: World, s: State, x: Residue)
    requires Held(w, s, x)
    ensures Held(w, s, Fork(x, Unspecified))
  {
    ReachesRefl(w.img, s);
    HeldNone(w, s);
    HeldFork(w, s, x, s, Unspecified);
  }

  lemma {:induction false} HeldTwice(w: World, s: State, x: Residue)
    requires Held(w, s, x)
    ensures Held(w, s, Fork(x, Fork(Unspecified, Unspecified)))
  {
    ReachesRefl(w.img, s);
    HeldNone(w, s);
    HeldFirst(w, s, Unspecified);
    HeldFork(w, s, x, s, Fork(Unspecified, Unspecified));
  }

  lemma {:induction false} HeldNone(w: World, s: State)
    ensures Held(w, s, Unspecified)
  {}

  lemma {:induction false} HeldFrame(w: World, s: State, f: FnDecl, a: State, inner: Residue)
    requires Calling(w, s, f) && Reaches(w.img, s, a) && Held(w, a, inner)
    ensures Held(w, s, Frame(FrameBelow(f, s), inner))
  {
    hide Reaches, Calling, FrameBelow;
    ReachesRefl(w.img, s);
    HeldEarlier(w, s, a, inner);
  }

  // ----- definite residues -----

  /** Zeros where nothing was said. */
  function Filled(z: Residue): (r: Residue)
    ensures Definite(r)
  {
    match z
    case Unspecified => Zeros
    case Zeros => Zeros
    case Fork(x, y) => Fork(Filled(x), Filled(y))
    case Frame(words, inner) => Frame(words, Filled(inner))
  }

  lemma {:induction false} FilledSaysMore(z: Residue)
    ensures Vaguer(z, Filled(z))
    decreases z
  {
    match z
    case Fork(x, y) =>
      FilledSaysMore(x);
      FilledSaysMore(y);
    case Frame(_, inner) => FilledSaysMore(inner);
    case _ =>
  }

  /** A call that comes about finds in its frame what memory holds below the caller's stack. */
  ghost predicate FramedFirst(w: World, name: string, ws: seq<Word>, s: State, z: Residue) {
    var l := Lookup(w.p.fns, name, 0);
    l.Some? && |l.value.decl.params| == |ws| ==> z.Frame? && z.words == FrameBelow(l.value.decl, s)
  }
}
