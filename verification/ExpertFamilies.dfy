/** Counting tensors forces the whole expert family to be there (scripts/audit_checkpoint.py). */
module ExpertFamilies {
  import opened Common
  import opened Cardinality
  import opened TensorNames
  import opened CheckpointIndex

  type Headers = map<string, map<string, Entry>>

  // ------------------------------------------------------------------
  // Families in general
  // ------------------------------------------------------------------

  /**
   A family of tensors: how a name is matched to an identity, the canonical name of an identity,
   which identities belong, and which entries they may have.
   */
  datatype Family<!I> = Family(
    find: string -> Option<I>, name: I -> string, belongs: I -> bool, fits: (Entry, I) -> bool)

  /** Canonical names are matched to their own identity. */
  ghost predicate Sound<I(!new)>(f: Family<I>) {
    forall id :: f.find(f.name(id)) == Some(id)
  }

  /** The members are finitely many. */
  ghost predicate Members<I(!new)>(f: Family<I>, members: set<I>) {
    forall id :: id in members <==> f.belongs(id)
  }

  /** A name the family does not match, or the canonical name of a member with a fitting entry. */
  predicate NameOk<I(==)>(f: Family<I>, name: string, entry: Entry) {
    match f.find(name)
    case None => true
    case Some(id) => name == f.name(id) && f.belongs(id) && f.fits(entry, id)
  }

  ghost predicate OccursOnce<I(!new)>(f: Family<I>, headers: Headers, id: I) {
    && (exists s :: s in headers && f.name(id) in headers[s])
    && (forall s, t :: s in headers && t in headers && f.name(id) in headers[s] && f.name(id) in headers[t] ==> s == t)
  }

  /**
   Each member is in exactly one shard, under its canonical name, with a fitting entry; and the
   family's grammar matches nothing else.
   */
  ghost predicate Complete<I(!new)>(f: Family<I>, headers: Headers) {
    && (forall s, n :: s in headers && n in headers[s] ==> NameOk(f, n, headers[s][n]))
    && (forall id :: f.belongs(id) ==> OccursOnce(f, headers, id))
  }

  function Pairs(headers: Headers): (r: set<(string, string)>) {
    set s, n | s in headers && n in headers[s] :: (s, n)
  }

  /** What the loop knows after the names in `done`. */
  ghost predicate Looked<I(!new)>(f: Family<I>, headers: Headers, done: set<(string, string)>, seen: set<I>) {
    && done <= Pairs(headers)
    && (forall p <- done :: NameOk(f, p.1, headers[p.0][p.1]))
    && (forall p <- done :: f.find(p.1).Some? ==> f.find(p.1).value in seen)
    && (forall id <- seen :: f.belongs(id) && exists p :: p in done && p.1 == f.name(id))
    && (forall p, q :: p in done && q in done && p.1 == q.1 && f.find(p.1).Some? ==> p == q)
  }

  /** Looking at one more good name. */
  lemma LookedMore<I(!new)>(
    f: Family<I>, headers: Headers, done: set<(string, string)>, seen: set<I>, p: (string, string))
    requires Sound(f) && Looked(f, headers, done, seen) && p in Pairs(headers) && p !in done
    requires NameOk(f, p.1, headers[p.0][p.1])
    requires f.find(p.1).Some? ==> f.find(p.1).value !in seen
    ensures
      var seen' := if f.find(p.1).Some? then seen + {f.find(p.1).value} else seen;
      Looked(f, headers, done + {p}, seen')
  {
    var done' := done + {p};
    if f.find(p.1).Some? {
      var id := f.find(p.1).value;
      assert p in done' && p.1 == f.name(id);
      assert forall q <- done :: q.1 != p.1;
    }
  }

  /** A second occurrence of an identity already seen. */
  lemma SeenTwice<I(!new)>(
    f: Family<I>, headers: Headers, done: set<(string, string)>, seen: set<I>, p: (string, string), id: I)
    requires Looked(f, headers, done, seen) && p in Pairs(headers) && p !in done
    requires id in seen && p.1 == f.name(id)
    ensures !Complete(f, headers)
  {
    var q :| q in done && q.1 == f.name(id);
    assert q.0 != p.0;
    assert !OccursOnce(f, headers, id);
  }

  /** After the last name, the members are all seen exactly when the family is complete. */
  lemma AllLooked<I(!new)>(f: Family<I>, headers: Headers, seen: set<I>, members: set<I>)
    requires Sound(f) && Members(f, members)
    requires Looked(f, headers, Pairs(headers), seen)
    ensures seen <= members
    ensures seen == members <==> Complete(f, headers)
  {
    forall s, n | s in headers && n in headers[s] ensures NameOk(f, n, headers[s][n]) {
      assert (s, n) in Pairs(headers);
    }
    if seen == members {
      forall id | f.belongs(id) ensures OccursOnce(f, headers, id) {
        var p :| p in Pairs(headers) && p.1 == f.name(id);
        assert p.0 in headers && f.name(id) in headers[p.0];
        forall s, t | s in headers && t in headers && f.name(id) in headers[s] && f.name(id) in headers[t]
          ensures s == t
        {
          assert (s, f.name(id)) in Pairs(headers) && (t, f.name(id)) in Pairs(headers);
        }
      }
    }
    if Complete(f, headers) {
      forall id <- members ensures id in seen {
        assert OccursOnce(f, headers, id);
        var s :| s in headers && f.name(id) in headers[s];
        assert (s, f.name(id)) in Pairs(headers);
      }
    }
  }

  /** The loop over all headers: reject a bad name at once, at the end compare a count. */
  method CheckFamily<I(==,!new)>(f: Family<I>, headers: Headers, count: nat, ghost members: set<I>) returns (ok: bool)
    requires Sound(f) && Members(f, members) && count == |members|
    ensures ok <==> Complete(f, headers)
  {
    var seen: set<I> := {};
    var todo := Pairs(headers);
    ghost var done := {};
    while todo != {}
      invariant done == Pairs(headers) - todo && todo <= Pairs(headers)
      invariant Looked(f, headers, done, seen)
    {
      var pair :| pair in todo;
      var (name, entry) := (pair.1, headers[pair.0][pair.1]);
      var found := f.find(name);
      if found.Some? {
        var id := found.value;
        if name != f.name(id) || id in seen || !f.belongs(id) {
          if name == f.name(id) && id in seen {
            SeenTwice(f, headers, done, seen, pair, id);
          }
          return false;
        }
        if !f.fits(entry, id) {
          return false;
        }
        LookedMore(f, headers, done, seen, pair);
        seen := seen + {id};
      } else {
        LookedMore(f, headers, done, seen, pair);
      }
      done := done + {pair};
      todo := todo - {pair};
    }
    AllLooked(f, headers, seen, members);
    ok := |seen| == count;
    if ok {
      FullSubset(seen, members);
    }
  }

  // ------------------------------------------------------------------
  // The NVFP4 family
  // ------------------------------------------------------------------

  datatype Kind = Weight | WeightScale | WeightScale2 | InputScale

  /** Layer, expert, projection and kind. */
  type Id = (nat, nat, Proj, Kind)

  const MAIN_PREFIX := "model.language_model.layers."

  function KindName(k: Kind): (s: string) {
    match k
    case Weight => "weight"
    case WeightScale => "weight_scale"
    case WeightScale2 => "weight_scale_2"
    case InputScale => "input_scale"
  }

  function MatchKind(s: string): (r: Option<Kind>) {
    if s == "weight" then Some(Weight)
    else if s == "weight_scale" then Some(WeightScale)
    else if s == "weight_scale_2" then Some(WeightScale2)
    else if s == "input_scale" then Some(InputScale)
    else None
  }

  lemma MatchKindName(k: Kind)
    ensures MatchKind(KindName(k)) == Some(k)
  {
    assert "weight_scale"[6] == '_';
    assert |"weight"| == 6 && |"weight_scale"| == 12 && |"weight_scale_2"| == 14 && |"input_scale"| == 11;
  }

  function Canonical(id: Id): (s: string) {
    ExpertName(MAIN_PREFIX, id.0, id.1, ProjTail(id.2, KindName(id.3)))
  }

  function MatchMainTail(tail: string): (r: Option<(Proj, Kind)>) {
    match MatchProj(tail)
    case None => None
    case Some((p, rest)) =>
      match MatchKind(rest)
      case None => None
      case Some(k) => Some((p, k))
  }

  /** The regular expression of the family, anchored at both ends. */
  function MatchMain(name: string, nd: DigitTable): (r: Option<Id>) {
    match MatchExpert(MAIN_PREFIX, name, nd)
    case None => None
    case Some((layer, expert, tail)) =>
      match MatchMainTail(tail)
      case None => None
      case Some((p, k)) => Some((layer, expert, p, k))
  }

  lemma MatchMainTailOf(p: Proj, k: Kind)
    ensures MatchMainTail(ProjTail(p, KindName(k))) == Some((p, k))
  {
    MatchProjTail(p, KindName(k));
    MatchKindName(k);
  }

  lemma MatchCanonical(id: Id, nd: DigitTable)
    requires IsDigitTable(nd)
    ensures MatchMain(Canonical(id), nd) == Some(id)
  {
    var tail := ProjTail(id.2, KindName(id.3));
    MatchExpertName(MAIN_PREFIX, id.0, id.1, tail, nd);
    MatchMainTailOf(id.2, id.3);
  }

  datatype Nvfp4 = Nvfp4(
    layers: nat, experts: nat,
    weightDtype: string, scaleDtype: string, scale2Dtype: string, inputScaleDtype: string,
    weightShapes: Proj -> seq<nat>, scaleShapes: Proj -> seq<nat>)

  /** The contract of the pinned checkpoint. */
  const TRUSTED_NVFP4: Nvfp4 := Nvfp4(
    48, 512, "U8", "F8_E4M3", "F32", "F32",
    (p: Proj) => if p.DownProj? then [2560, 320] else [640, 1280],
    (p: Proj) => if p.DownProj? then [2560, 40] else [640, 160])

  predicate InRange(id: Id, c: Nvfp4) { id.0 < c.layers && id.1 < c.experts }

  predicate Fits(e: Entry, id: Id, c: Nvfp4) {
    match id.3
    case Weight => e.dtype == c.weightDtype && e.shape == c.weightShapes(id.2)
    case WeightScale => e.dtype == c.scaleDtype && e.shape == c.scaleShapes(id.2)
    case WeightScale2 => e.dtype == c.scale2Dtype && e.shape == []
    case InputScale => e.dtype == c.inputScaleDtype && e.shape == []
  }

  function MainFamily(c: Nvfp4, nd: DigitTable): (f: Family<Id>) {
    Family((n: string) => MatchMain(n, nd), (id: Id) => Canonical(id),
           (id: Id) => InRange(id, c), (e: Entry, id: Id) => Fits(e, id, c))
  }

  lemma MainSound(c: Nvfp4, nd: DigitTable)
    requires IsDigitTable(nd)
    ensures Sound(MainFamily(c, nd))
  {
    var f := MainFamily(c, nd);
    forall id: Id ensures f.find(f.name(id)) == Some(id) {
      MatchCanonical(id, nd);
    }
  }

  ghost function FullProduct(layers: nat, experts: nat): (r: set<Id>) {
    Image(Times(Times(Below(layers), Below(experts)), Times(PROJECTIONS, KINDS)), Regroup)
  }

  const KINDS: set<Kind> := {Weight, WeightScale, WeightScale2, InputScale}

  function Regroup(x: ((nat, nat), (Proj, Kind))): (id: Id) { (x.0.0, x.0.1, x.1.0, x.1.1) }

  lemma FullProductSize(layers: nat, experts: nat)
    ensures |FullProduct(layers, experts)| == layers * experts * 3 * 4
  {
    var (a, b) := (Times(Below(layers), Below(experts)), Times(PROJECTIONS, KINDS));
    assert |a| == layers * experts by { TimesSize(Below(layers), Below(experts)); }
    assert |b| == 12 by {
      TimesSize(PROJECTIONS, KINDS);
      TagSets();
    }
    TimesSize(a, b);
    RegroupInjective(Times(a, b));
    ImageSize(Times(a, b), Regroup);
  }

  lemma RegroupInjective(s: set<((nat, nat), (Proj, Kind))>)
    ensures InjectiveOn(s, Regroup)
  {
  }

  lemma TagSets()
    ensures |PROJECTIONS| == 3 && |KINDS| == 4
    ensures forall p: Proj :: p in PROJECTIONS
    ensures forall k: Kind :: k in KINDS
  {
    forall p: Proj ensures p in PROJECTIONS {
      match p case GateProj => case UpProj => case DownProj =>
    }
    forall k: Kind ensures k in KINDS {
      match k case Weight => case WeightScale => case WeightScale2 => case InputScale =>
    }
  }

  lemma FullProductMembers(c: Nvfp4, nd: DigitTable)
    ensures Members(MainFamily(c, nd), FullProduct(c.layers, c.experts))
  {
    var (a, b) := (Times(Below(c.layers), Below(c.experts)), Times(PROJECTIONS, KINDS));
    TagSets();
    forall id: Id ensures id in FullProduct(c.layers, c.experts) <==> InRange(id, c) {
      var x := ((id.0, id.1), (id.2, id.3));
      assert Regroup(x) == id;
      assert x in Times(a, b) <==> InRange(id, c);
    }
  }

  /**
   Accepting by count alone is accepting exactly the complete families: every layer, expert,
   projection and kind once, under its canonical name, with the contracted dtype and shape.
   */
  method ValidateNvfp4(headers: Headers, c: Nvfp4, nd: DigitTable) returns (ok: bool)
    requires IsDigitTable(nd)
    ensures ok <==> Complete(MainFamily(c, nd), headers)
  {
    MainSound(c, nd);
    FullProductMembers(c, nd);
    FullProductSize(c.layers, c.experts);
    ok := CheckFamily(MainFamily(c, nd), headers, c.layers * c.experts * 3 * 4, FullProduct(c.layers, c.experts));
  }

  // ------------------------------------------------------------------
  // The MTP family
  // ------------------------------------------------------------------

  datatype MtpKind = MtpWeight | MtpScale

  /** Layer, expert, projection and kind; only layer 0 belongs. */
  type MtpId = (nat, nat, Proj, MtpKind)

  const MTP_PREFIX := "mtp.layers."

  function MtpKindName(k: MtpKind): (s: string) {
    if k.MtpWeight? then "weight" else "weight_scale_inv"
  }

  /** `$` under `match` also lets one final line feed pass. */
  function MatchMtpKind(s: string): (r: Option<MtpKind>) {
    if s == "weight" || s == "weight\n" then Some(MtpWeight)
    else if s == "weight_scale_inv" || s == "weight_scale_inv\n" then Some(MtpScale)
    else None
  }

  lemma MatchMtpKindName(k: MtpKind)
    ensures MatchMtpKind(MtpKindName(k)) == Some(k)
  {
    assert |"weight"| == 6 && |"weight\n"| == 7 && |"weight_scale_inv"| == 16;
  }

  function MtpCanonical(id: MtpId): (s: string) {
    ExpertName(MTP_PREFIX, id.0, id.1, ProjTail(id.2, MtpKindName(id.3)))
  }

  function MatchMtpTail(tail: string): (r: Option<(Proj, MtpKind)>) {
    match MatchProj(tail)
    case None => None
    case Some((p, rest)) =>
      match MatchMtpKind(rest)
      case None => None
      case Some(k) => Some((p, k))
  }

  function MatchMtp(name: string, nd: DigitTable): (r: Option<MtpId>) {
    match MatchExpert(MTP_PREFIX, name, nd)
    case None => None
    case Some((layer, expert, tail)) =>
      match MatchMtpTail(tail)
      case None => None
      case Some((p, k)) => Some((layer, expert, p, k))
  }

  lemma MatchMtpTailOf(p: Proj, k: MtpKind)
    ensures MatchMtpTail(ProjTail(p, MtpKindName(k))) == Some((p, k))
  {
    MatchProjTail(p, MtpKindName(k));
    MatchMtpKindName(k);
  }

  lemma MatchMtpCanonical(id: MtpId, nd: DigitTable)
    requires IsDigitTable(nd)
    ensures MatchMtp(MtpCanonical(id), nd) == Some(id)
  {
    var tail := ProjTail(id.2, MtpKindName(id.3));
    MatchExpertName(MTP_PREFIX, id.0, id.1, tail, nd);
    MatchMtpTailOf(id.2, id.3);
  }

  datatype Mtp = Mtp(
    experts: nat, weightDtype: string, scaleDtypes: set<string>,
    shapes: Proj -> seq<nat>, scaleGrids: Proj -> seq<nat>)

  /** The contract of the pinned checkpoint. */
  const TRUSTED_MTP: Mtp := Mtp(
    512, "F8_E4M3", {"BF16", "F32"},
    (p: Proj) => if p.DownProj? then [2560, 640] else [640, 2560],
    (p: Proj) => if p.DownProj? then [20, 5] else [5, 20])

  predicate MtpInRange(id: MtpId, c: Mtp) { id.0 == 0 && id.1 < c.experts }

  predicate MtpFits(e: Entry, id: MtpId, c: Mtp) {
    match id.3
    case MtpWeight => e.dtype == c.weightDtype && e.shape == c.shapes(id.2)
    case MtpScale => e.dtype in c.scaleDtypes && e.shape == c.scaleGrids(id.2)
  }

  function MtpFamily(c: Mtp, nd: DigitTable): (f: Family<MtpId>) {
    Family((n: string) => MatchMtp(n, nd), (id: MtpId) => MtpCanonical(id),
           (id: MtpId) => MtpInRange(id, c), (e: Entry, id: MtpId) => MtpFits(e, id, c))
  }

  lemma MtpSound(c: Mtp, nd: DigitTable)
    requires IsDigitTable(nd)
    ensures Sound(MtpFamily(c, nd))
  {
    var f := MtpFamily(c, nd);
    forall id: MtpId ensures f.find(f.name(id)) == Some(id) {
      MatchMtpCanonical(id, nd);
    }
  }

  const MTP_KINDS: set<MtpKind> := {MtpWeight, MtpScale}

  function MtpRegroup(x: (nat, (Proj, MtpKind))): (id: MtpId) { (0, x.0, x.1.0, x.1.1) }

  ghost function MtpProduct(experts: nat): (r: set<MtpId>) {
    Image(Times(Below(experts), Times(PROJECTIONS, MTP_KINDS)), MtpRegroup)
  }

  lemma MtpTagSets()
    ensures |MTP_KINDS| == 2
    ensures forall k: MtpKind :: k in MTP_KINDS
  {
    forall k: MtpKind ensures k in MTP_KINDS {
      match k case MtpWeight => case MtpScale =>
    }
  }

  lemma MtpProductSize(experts: nat)
    ensures |MtpProduct(experts)| == experts * 3 * 2
  {
    var b := Times(PROJECTIONS, MTP_KINDS);
    assert |b| == 6 by {
      TimesSize(PROJECTIONS, MTP_KINDS);
      TagSets();
      MtpTagSets();
    }
    var pairs := Times(Below(experts), b);
    TimesSize(Below(experts), b);
    assert InjectiveOn(pairs, MtpRegroup);
    ImageSize(pairs, MtpRegroup);
  }

  lemma MtpProductMembers(c: Mtp, nd: DigitTable)
    ensures Members(MtpFamily(c, nd), MtpProduct(c.experts))
  {
    var pairs := Times(Below(c.experts), Times(PROJECTIONS, MTP_KINDS));
    TagSets();
    MtpTagSets();
    forall id: MtpId ensures id in MtpProduct(c.experts) <==> MtpInRange(id, c) {
      var x := (id.1, (id.2, id.3));
      assert id.0 == 0 ==> MtpRegroup(x) == id;
      assert x in pairs <==> id.1 < c.experts;
    }
  }

  /** Names of a header that the family matches. */
  ghost function Matched<I(!new)>(f: Family<I>, header: map<string, Entry>): (r: set<string>) {
    set n | n in header && f.find(n).Some?
  }

  ghost predicate AllOk<I(!new)>(f: Family<I>, header: map<string, Entry>) {
    forall n <- header :: NameOk(f, n, header[n])
  }

  ghost function IdOf<I(!new)>(f: Family<I>, default: I): (g: string -> I) {
    n => if f.find(n).Some? then f.find(n).value else default
  }

  /** Good names that are as many as the members are the names of all members. */
  lemma CountForcesMembers<I(!new)>(f: Family<I>, header: map<string, Entry>, members: set<I>, id: I)
    requires Sound(f) && Members(f, members) && AllOk(f, header)
    requires |Matched(f, header)| == |members|
    requires f.belongs(id)
    ensures f.name(id) in header
  {
    var (names, g) := (Matched(f, header), IdOf(f, id));
    forall n <- names ensures n == f.name(g(n)) && g(n) in members {
      assert NameOk(f, n, header[n]);
    }
    assert InjectiveOn(names, g);
    ImageSize(names, g);
    FullSubset(Image(names, g), members);
    var n :| n in names && g(n) == id;
  }

  /** A header that holds every member holds as many matched names as there are members. */
  lemma MembersForceCount<I(!new)>(f: Family<I>, header: map<string, Entry>, members: set<I>)
    requires Sound(f) && Members(f, members) && AllOk(f, header)
    requires forall id <- members :: f.name(id) in header
    ensures |Matched(f, header)| == |members|
  {
    forall a, b | a in members && b in members && f.name(a) == f.name(b) ensures a == b {
      assert f.find(f.name(a)) == Some(a);
    }
    ImageSize(members, f.name);
    forall n ensures n in Matched(f, header) <==> n in Image(members, f.name) {
      if n in Matched(f, header) {
        assert NameOk(f, n, header[n]);
      }
    }
    assert Matched(f, header) == Image(members, f.name);
  }

  ghost predicate MtpComplete(header: map<string, Entry>, c: Mtp, nd: DigitTable) {
    && AllOk(MtpFamily(c, nd), header)
    && forall id: MtpId :: MtpInRange(id, c) ==> MtpCanonical(id) in header
  }

  /** Projections seen so far per expert, and nothing but what good names showed. */
  ghost predicate SeenExperts(
    header: map<string, Entry>, done: set<string>, seen: map<nat, set<Proj>>, f: Family<MtpId>)
  {
    && (forall n <- done :: n in header && NameOk(f, n, header[n]))
    && (forall n <- done :: f.find(n).Some? ==>
          var id := f.find(n).value; id.1 in seen && id.2 in seen[id.1])
  }

  /** The loop over the header: stop at the first bad name, collect names and projections. */
  method ScanMtp(header: map<string, Entry>, f: Family<MtpId>)
    returns (good: bool, matched: set<string>, seen: map<nat, set<Proj>>)
    ensures good <==> AllOk(f, header)
    ensures good ==> matched == Matched(f, header) && SeenExperts(header, header.Keys, seen, f)
  {
    matched, seen := {}, map[];
    var todo := header.Keys;
    while todo != {}
      invariant todo <= header.Keys
      invariant matched == set n | n in header.Keys - todo && f.find(n).Some?
      invariant SeenExperts(header, header.Keys - todo, seen, f)
    {
      var name :| name in todo;
      var found := f.find(name);
      if found.Some? {
        var id := found.value;
        if name != f.name(id) || !f.belongs(id) || !f.fits(header[name], id) {
          assert !NameOk(f, name, header[name]);
          return false, matched, seen;
        }
        matched := matched + {name};
        seen := seen[id.1 := (if id.1 in seen then seen[id.1] else {}) + {id.2}];
      }
      todo := todo - {name};
    }
    good := true;
  }

  /** The count says exactly whether every member is there. */
  lemma MtpCountExact(header: map<string, Entry>, c: Mtp, nd: DigitTable)
    requires IsDigitTable(nd) && AllOk(MtpFamily(c, nd), header)
    ensures |Matched(MtpFamily(c, nd), header)| == c.experts * 3 * 2 <==> MtpComplete(header, c, nd)
  {
    var (f, members) := (MtpFamily(c, nd), MtpProduct(c.experts));
    MtpSound(c, nd);
    MtpProductMembers(c, nd);
    MtpProductSize(c.experts);
    if |Matched(f, header)| == |members| {
      forall id: MtpId | MtpInRange(id, c) ensures MtpCanonical(id) in header {
        CountForcesMembers(f, header, members, id);
      }
    } else if MtpComplete(header, c, nd) {
      forall id <- members ensures f.name(id) in header {
        assert f.belongs(id) && MtpInRange(id, c);
      }
      MembersForceCount(f, header, members);
    }
  }

  /**
   The MTP check. `counted` says that no name was rejected and the count was right; the last
   loop over the experts then never fails.
   */
  method ValidateMtp(header: map<string, Entry>, c: Mtp, nd: DigitTable) returns (counted: bool, ok: bool)
    requires IsDigitTable(nd)
    ensures ok <==> MtpComplete(header, c, nd)
    ensures ok == counted
  {
    var good, matched, seen := ScanMtp(header, MtpFamily(c, nd));
    if !good {
      return false, false;
    }
    MtpCountExact(header, c, nd);
    if |matched| != c.experts * 3 * 2 {
      return false, false;
    }
    counted, ok := true, true;
    for expert := 0 to c.experts
      invariant ok
    {
      ExpertCarriesAll(header, c, nd, seen, expert);
      ok := ok && expert in seen && seen[expert] == PROJECTIONS;
    }
  }

  lemma ExpertCarriesAll(header: map<string, Entry>, c: Mtp, nd: DigitTable, seen: map<nat, set<Proj>>, expert: nat)
    requires IsDigitTable(nd) && MtpComplete(header, c, nd) && expert < c.experts
    requires SeenExperts(header, header.Keys, seen, MtpFamily(c, nd))
    ensures expert in seen && seen[expert] == PROJECTIONS
  {
    ExpertShows(header, c, nd, seen, expert, GateProj);
    ExpertShows(header, c, nd, seen, expert, UpProj);
    ExpertShows(header, c, nd, seen, expert, DownProj);
    TagSets();
  }

  /** A complete header has shown projection `p` of this expert. */
  lemma ExpertShows(
    header: map<string, Entry>, c: Mtp, nd: DigitTable, seen: map<nat, set<Proj>>, expert: nat, p: Proj)
    requires IsDigitTable(nd) && MtpComplete(header, c, nd) && expert < c.experts
    requires SeenExperts(header, header.Keys, seen, MtpFamily(c, nd))
    ensures expert in seen && p in seen[expert]
  {
    var id: MtpId := (0, expert, p, MtpWeight);
    MatchMtpCanonical(id, nd);
    assert MtpCanonical(id) in header;
    assert MtpFamily(c, nd).find(MtpCanonical(id)) == Some(id);
  }

  /** The numbers of tensors that the pinned checkpoint's two families are counted against. */
  lemma TrustedSizes()
    ensures |FullProduct(TRUSTED_NVFP4.layers, TRUSTED_NVFP4.experts)| == 294912
    ensures |MtpProduct(TRUSTED_MTP.experts)| == 3072
  {
    FullProductSize(TRUSTED_NVFP4.layers, TRUSTED_NVFP4.experts);
    MtpProductSize(TRUSTED_MTP.experts);
  }
}
