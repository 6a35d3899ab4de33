/**
 * Completing an image upload: verify the staged bytes, publish them under an
 * immutable key, and race with other completions and with overwrites of the
 * staging object.
 */
module Media {
  import opened Options

  const MAX_BYTES := 10 * 1024 * 1024
  const MAX_PIXELS := 20_000_000
  const MAX_DIMENSION := 10_000

  newtype byte = x: int | 0 <= x < 256

  type Bytes = seq<byte>

  datatype Mime = Jpeg | Png | Webp | OtherType

  datatype Picture = Picture(format: Mime, width: int, height: int)

  /** The image library: what the header says and what decoding all of it gives. */
  datatype Decoder = Decoder(header: Bytes -> Option<Picture>, full: Bytes -> Option<Picture>)

  /** What the upload was declared as. */
  datatype Declared = Declared(mime: Mime, size: int)

  datatype Verified = Verified(mime: Mime, size: int, width: int, height: int)

  function ValidateImage(dec: Decoder, b: Bytes, decl: Declared): Option<Verified> {
    if decl.mime == OtherType || |b| != decl.size || decl.size < 1 || decl.size > MAX_BYTES then None
    else
      match dec.header(b)
      case None => None
      case Some(p) =>
        if p.format != decl.mime || p.width < 1 || p.height < 1 || p.width > MAX_DIMENSION || p.height > MAX_DIMENSION
           || p.width * p.height > MAX_PIXELS then None
        else if dec.full(b) != Some(p) then None
        else Some(Verified(p.format, decl.size, p.width, p.height))
  }

  /** The limits every published image keeps. */
  predicate Acceptable(v: Verified, b: Bytes, decl: Declared) {
    && v.mime == decl.mime != OtherType && v.size == decl.size == |b| && 1 <= v.size <= MAX_BYTES
    && 1 <= v.width <= MAX_DIMENSION && 1 <= v.height <= MAX_DIMENSION && v.width * v.height <= MAX_PIXELS
  }

  /** Accepted bytes decode completely to a picture of the declared type within the limits, and only such bytes are. */
  lemma ValidateImageIff(dec: Decoder, b: Bytes, decl: Declared, v: Verified)
    ensures ValidateImage(dec, b, decl) == Some(v) <==>
              Acceptable(v, b, decl) && dec.header(b) == dec.full(b) == Some(Picture(v.mime, v.width, v.height))
  {
  }

  // ------------------------------------------------------------------- machine

  datatype Phase =
    | Checked(bytes: Bytes, image: Verified)
    | Exists
    | Published(image: Verified)
    | Done(image: Verified)
    | Failed

  /** row is the image the database row describes once it is ready; results are all images handed to callers. */
  datatype State = State(
    dec: Decoder, decl: Declared, staging: Option<Bytes>, final: Option<Bytes>, row: Option<Verified>,
    calls: map<nat, Phase>, results: set<Verified>)

  datatype Label =
    | Overwrite(b: Bytes)
    | RemoveStaging
    | Fetch(c: nat)
    | Publish(c: nat, lost: bool)
    | Reread(c: nat)
    | MarkReady(c: nat, lost: bool)
    | GiveUp(c: nat)

  function Put(s: State, c: nat, p: Phase): State {
    s.(calls := s.calls[c := p])
  }

  function HandOut(s: State, c: nat, v: Verified): State {
    Put(s, c, Done(v)).(results := s.results + {v})
  }

  /** A ready row answers at once; otherwise the staged bytes are read and checked. */
  function FetchStep(s: State, c: nat): State {
    if c in s.calls then s
    else if s.row.Some? then HandOut(s, c, s.row.value)
    else if s.staging.None? || |s.staging.value| > MAX_BYTES then Put(s, c, Failed)
    else
      match ValidateImage(s.dec, s.staging.value, s.decl)
      case Some(v) => Put(s, c, Checked(s.staging.value, v))
      case None => Put(s, c, Failed)
  }

  /** Creates the object only if it is absent; a lost reply still leaves it behind. */
  function PublishStep(s: State, c: nat, lost: bool): State {
    if !(c in s.calls && s.calls[c].Checked?) then s
    else if s.final.Some? then Put(s, c, Exists)
    else
      var t := s.(final := Some(s.calls[c].bytes));
      if lost then Put(t, c, Failed) else Put(t, c, Published(s.calls[c].image))
  }

  /** Another completion won: its bytes are verified instead. */
  function RereadStep(s: State, c: nat): State {
    if !(c in s.calls && s.calls[c] == Exists) then s
    else if s.final.None? || |s.final.value| > MAX_BYTES then Put(s, c, Failed)
    else
      match ValidateImage(s.dec, s.final.value, s.decl)
      case Some(v) => Put(s, c, Published(v))
      case None => Put(s, c, Failed)
  }

  function MarkReadyStep(s: State, c: nat, lost: bool): State {
    if !(c in s.calls && s.calls[c].Published?) then s
    else if s.row.Some? then Put(s, c, Failed)
    else
      var t := s.(row := Some(s.calls[c].image));
      if lost then Put(t, c, Failed) else HandOut(t, c, s.calls[c].image)
  }

  function Step(s: State, l: Label): State {
    match l
    case Overwrite(b) => s.(staging := Some(b))
    case RemoveStaging => s.(staging := None)
    case Fetch(c) => FetchStep(s, c)
    case Publish(c, lost) => PublishStep(s, c, lost)
    case Reread(c) => RereadStep(s, c)
    case MarkReady(c, lost) => MarkReadyStep(s, c, lost)
    case GiveUp(c) => if c in s.calls && s.calls[c].Done? then s else Put(s, c, Failed)
  }

  function Run(s: State, ls: seq<Label>): State
    decreases |ls|
  {
    if ls == [] then s else Run(Step(s, ls[0]), ls[1..])
  }

  predicate Initial(s: State) {
    s.final.None? && s.row.None? && s.calls == map[] && s.results == {}
  }

  // ----------------------------------------------------------------- invariant

  /** The image describes the bytes under the immutable key. */
  predicate Describes(s: State, v: Verified) {
    s.final.Some? && ValidateImage(s.dec, s.final.value, s.decl) == Some(v)
  }

  ghost predicate CallOk(s: State, c: nat)
    requires c in s.calls
  {
    match s.calls[c]
    case Checked(b, v) => ValidateImage(s.dec, b, s.decl) == Some(v)
    case Published(v) => Describes(s, v)
    case Done(v) => Describes(s, v)
    case _ => true
  }

  ghost predicate Inv(s: State) {
    && (forall c {:trigger CallOk(s, c)} :: c in s.calls ==> CallOk(s, c))
    && (s.row.Some? ==> Describes(s, s.row.value))
    && (forall v :: v in s.results ==> Describes(s, v))
  }

  lemma StepKeeps(s: State, l: Label)
    requires Inv(s)
    ensures Inv(Step(s, l)) && Step(s, l).dec == s.dec && Step(s, l).decl == s.decl
    ensures s.final.Some? ==> Step(s, l).final == s.final
  {
    var t := Step(s, l);
    if !l.Overwrite? && !l.RemoveStaging? && l.c in s.calls { assert CallOk(s, l.c); }
    forall c | c in t.calls ensures CallOk(t, c) {
      if c in s.calls { assert CallOk(s, c); }
    }
  }

  lemma {:induction false} RunKeeps(s: State, ls: seq<Label>)
    requires Inv(s)
    ensures Inv(Run(s, ls)) && Run(s, ls).dec == s.dec && Run(s, ls).decl == s.decl
    ensures s.final.Some? ==> Run(s, ls).final == s.final
    decreases |ls|
  {
    if ls != [] {
      StepKeeps(s, ls[0]);
      RunKeeps(Step(s, ls[0]), ls[1..]);
    }
  }

  ghost predicate Reachable(s: State) {
    exists start, ls :: Initial(start) && s == Run(start, ls)
  }

  lemma ReachableInv(s: State)
    requires Reachable(s)
    ensures Inv(s)
  {
    var start, ls :| Initial(start) && s == Run(start, ls);
    RunKeeps(start, ls);
  }

  /**
   * However completions, overwrites and lost replies interleave, any two images handed out, now or later, are equal;
   * they describe the published bytes, which never change, and keep every limit.
   */
  lemma CompletionsAgree(s: State, later: seq<Label>, v: Verified, w: Verified)
    requires Reachable(s) && v in s.results && w in Run(s, later).results
    ensures v == w && s.final.Some? && Run(s, later).final == s.final
    ensures Acceptable(v, s.final.value, s.decl)
    ensures s.dec.full(s.final.value) == Some(Picture(v.mime, v.width, v.height))
  {
    ReachableInv(s);
    RunKeeps(s, later);
    assert Describes(s, v) && Describes(Run(s, later), w);
    ValidateImageIff(s.dec, s.final.value, s.decl, v);
  }

  /** The row of a ready asset describes the published bytes as well. */
  lemma ReadyRowDescribesObject(s: State)
    requires Reachable(s) && s.row.Some?
    ensures Describes(s, s.row.value) && Acceptable(s.row.value, s.final.value, s.decl)
  {
    ReachableInv(s);
    ValidateImageIff(s.dec, s.final.value, s.decl, s.row.value);
  }

  // ------------------------------------------------------------------- the call

  predicate Foreign(ls: seq<Label>, c: nat) {
    forall k :: 0 <= k < |ls| ==>
      (ls[k].Fetch? || ls[k].Publish? || ls[k].Reread? || ls[k].MarkReady? || ls[k].GiveUp?) ==> ls[k].c != c
  }

  lemma {:induction false} RunConcat(s: State, a: seq<Label>, b: seq<Label>)
    ensures Run(s, a + b) == Run(Run(s, a), b)
    decreases |a|
  {
    if a == [] {
      assert a + b == b;
    } else {
      assert (a + b)[1..] == a[1..] + b;
      RunConcat(Step(s, a[0]), a[1..], b);
    }
  }

  /** Nobody else acts during the call. */
  ghost predicate Alone(gap: nat -> seq<Label>) {
    forall k :: gap(k) == []
  }

  class Service {
    var s: State
    /** Every step since the asset was created. */
    ghost var trace: seq<Label>
    ghost const start: State

    ghost predicate Valid()
      reads this
    {
      Initial(start) && s == Run(start, trace)
    }

    constructor (s: State)
      requires Initial(s)
      ensures Valid() && this.s == s && start == s
    {
      this.s, trace, start := s, [], s;
    }

    method Do(l: Label)
      requires Valid()
      modifies this
      ensures Valid() && s == Step(old(s), l)
    {
      RunConcat(start, trace, [l]);
      assert Run(s, [l]) == Run(Step(s, l), [l][1..]);
      s := Step(s, l);
      trace := trace + [l];
    }

    method Wait(ls: seq<Label>, ghost c: nat)
      requires Valid() && c in s.calls && Foreign(ls, c)
      modifies this
      ensures Valid() && c in s.calls && s.calls[c] == old(s.calls[c]) && (ls == [] ==> s == old(s))
    {
      for k := 0 to |ls|
        invariant Valid() && c in s.calls && s.calls[c] == old(s.calls[c]) && (k == 0 ==> s == old(s))
      {
        Do(ls[k]);
      }
    }

    /** Publishes the checked bytes, or verifies those of the completion that was first. */
    method PublishImage(c: nat, lost: bool, gap: nat -> seq<Label>)
      requires Valid() && c in s.calls && s.calls[c].Checked? && forall k :: Foreign(gap(k), c)
      modifies this
      ensures Valid() && c in s.calls && (s.calls[c].Published? || s.calls[c] == Failed)
      ensures Alone(gap) && !lost && old(s.final).None? ==>
                s.row == old(s.row) && s.calls[c] == Published(old(s.calls[c].image))
    {
      Wait(gap(0), c);
      Do(Publish(c, lost));
      if s.calls[c] == Exists {
        Wait(gap(1), c);
        Do(Reread(c));
      }
    }

    /**
     * A returned image describes the published bytes and keeps every limit; otherwise the call failed. Alone, on a
     * fresh asset, it returns the verified staged image.
     */
    method Complete(c: nat, lostPut: bool, lostReady: bool, gap: nat -> seq<Label>) returns (r: Option<Verified>)
      requires Valid() && c !in s.calls && forall k :: Foreign(gap(k), c)
      modifies this
      ensures Valid() && c in s.calls && s.calls[c] == (if r.Some? then Done(r.value) else Failed)
      ensures r.Some? ==> Describes(s, r.value) && Acceptable(r.value, s.final.value, s.decl)
      ensures Alone(gap) && !lostPut && !lostReady && old(s.row.None? && s.final.None? && s.staging.Some?) ==>
                r == old(ValidateImage(s.dec, s.staging.value, s.decl))
    {
      Do(Fetch(c));
      if s.calls[c].Checked? {
        PublishImage(c, lostPut, gap);
        if s.calls[c].Published? {
          Wait(gap(2), c);
          Do(MarkReady(c, lostReady));
        }
      }
      if s.calls[c].Done? {
        DoneDescribes(s, c);
        return Some(s.calls[c].image);
      }
      return None;
    }
  }

  lemma DoneDescribes(s: State, c: nat)
    requires Reachable(s) && c in s.calls && s.calls[c].Done?
    ensures Describes(s, s.calls[c].image) && Acceptable(s.calls[c].image, s.final.value, s.decl)
  {
    ReachableInv(s);
    assert CallOk(s, c);
    ValidateImageIff(s.dec, s.final.value, s.decl, s.calls[c].image);
  }
}
