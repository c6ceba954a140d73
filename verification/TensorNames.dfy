/** The name grammar of the quantized expert families: regular expressions and canonical names. */
module TensorNames {
  import opened Common

  /** The decimal digits the regular expressions and `int` know: ASCII and any others. */
  type DigitTable = char -> Option<nat>

  ghost predicate IsDigitTable(nd: DigitTable) {
    && (forall c :: '0' <= c <= '9' ==> nd(c) == Some(c as nat - '0' as nat))
    && nd('.').None?
  }

  const MID := ".mlp.experts."

  // ------------------------------------------------------------------
  // Numbers
  // ------------------------------------------------------------------

  function Digit(n: nat): (c: char)
    requires n < 10
    ensures '0' <= c <= '9' && c as nat - '0' as nat == n
  {
    (n + '0' as nat) as char
  }

  /** `%d` of a number. */
  function Decimal(n: nat): (s: string)
    ensures s != ""
  {
    if n < 10 then [Digit(n)] else Decimal(n / 10) + [Digit(n % 10)]
  }

  /** Length of the digits at the front, as `\d+` takes them. */
  function DigitRun(s: string, nd: DigitTable): (n: nat)
    ensures n <= |s|
    ensures forall i :: 0 <= i < n ==> nd(s[i]).Some?
    ensures n < |s| ==> nd(s[n]).None?
  {
    if s == "" || nd(s[0]).None? then 0 else 1 + DigitRun(s[1..], nd)
  }

  /** `int` of a run of digits. */
  function Value(s: string, nd: DigitTable): (n: nat)
    requires forall i :: 0 <= i < |s| ==> nd(s[i]).Some?
  {
    if s == "" then 0 else Value(s[..|s| - 1], nd) * 10 + nd(s[|s| - 1]).value
  }

  function ReadNumber(s: string, nd: DigitTable): (r: Option<(nat, string)>) {
    var n := DigitRun(s, nd);
    if n == 0 then None else Some((Value(s[..n], nd), s[n..]))
  }

  lemma {:induction false} DecimalValue(n: nat, nd: DigitTable)
    requires IsDigitTable(nd)
    ensures forall i :: 0 <= i < |Decimal(n)| ==> nd(Decimal(n)[i]).Some?
    ensures Value(Decimal(n), nd) == n
  {
    var s := Decimal(n);
    if n < 10 {
      assert s[..0] == "";
    } else {
      DecimalValue(n / 10, nd);
      assert s[..|s| - 1] == Decimal(n / 10);
    }
  }

  lemma {:induction false} DigitRunOf(d: string, rest: string, nd: DigitTable)
    requires forall i :: 0 <= i < |d| ==> nd(d[i]).Some?
    requires rest != "" ==> nd(rest[0]).None?
    ensures DigitRun(d + rest, nd) == |d|
  {
    if d == "" {
      assert d + rest == rest;
    } else {
      assert (d + rest)[1..] == d[1..] + rest;
      DigitRunOf(d[1..], rest, nd);
    }
  }

  lemma ReadDecimal(n: nat, rest: string, nd: DigitTable)
    requires IsDigitTable(nd) && rest != "" && rest[0] == '.'
    ensures ReadNumber(Decimal(n) + rest, nd) == Some((n, rest))
  {
    var d := Decimal(n);
    DecimalValue(n, nd);
    DigitRunOf(d, rest, nd);
    assert (d + rest)[..|d|] == d && (d + rest)[|d|..] == rest;
  }

  // ------------------------------------------------------------------
  // Expert names
  // ------------------------------------------------------------------

  /** The canonical name: prefix, layer, `.mlp.experts.`, expert, then projection and kind. */
  function ExpertName(prefix: string, layer: nat, expert: nat, tail: string): (s: string) {
    prefix + (Decimal(layer) + (MID + (Decimal(expert) + tail)))
  }

  /** The numbers and the rest of a name that begins like an expert name. */
  function MatchExpert(prefix: string, name: string, nd: DigitTable): (r: Option<(nat, nat, string)>) {
    if !(prefix <= name) then None
    else match ReadNumber(name[|prefix|..], nd)
         case None => None
         case Some((layer, rest)) =>
           if !(MID <= rest) then None
           else match ReadNumber(rest[|MID|..], nd)
                case None => None
                case Some((expert, tail)) => Some((layer, expert, tail))
  }

  lemma MatchExpertName(prefix: string, layer: nat, expert: nat, tail: string, nd: DigitTable)
    requires IsDigitTable(nd) && tail != "" && tail[0] == '.'
    ensures MatchExpert(prefix, ExpertName(prefix, layer, expert, tail), nd) == Some((layer, expert, tail))
  {
    var name := ExpertName(prefix, layer, expert, tail);
    var inner := Decimal(expert) + tail;
    var rest := MID + inner;
    assert name[|prefix|..] == Decimal(layer) + rest;
    assert MID[0] == '.' && rest[0] == '.';
    ReadDecimal(layer, rest, nd);
    assert rest[|MID|..] == inner;
    ReadDecimal(expert, tail, nd);
  }

  datatype Proj = GateProj | UpProj | DownProj

  const PROJECTIONS: set<Proj> := {GateProj, UpProj, DownProj}

  function ProjName(p: Proj): (s: string) {
    match p
    case GateProj => "gate_proj"
    case UpProj => "up_proj"
    case DownProj => "down_proj"
  }

  /** Which projection a tail begins with, and the kind part that follows it. */
  function MatchProj(tail: string): (r: Option<(Proj, string)>) {
    if ".gate_proj." <= tail then Some((GateProj, tail[11..]))
    else if ".up_proj." <= tail then Some((UpProj, tail[9..]))
    else if ".down_proj." <= tail then Some((DownProj, tail[11..]))
    else None
  }

  function ProjTail(p: Proj, kind: string): (s: string)
    ensures s != "" && s[0] == '.'
  {
    "." + ProjName(p) + "." + kind
  }

  lemma MatchProjTail(p: Proj, kind: string)
    ensures MatchProj(ProjTail(p, kind)) == Some((p, kind))
  {
    var t := ProjTail(p, kind);
    match p
    case GateProj =>
      assert t == ".gate_proj." + kind;
      assert t[11..] == kind;
    case UpProj =>
      assert t == ".up_proj." + kind;
      assert t[1] == 'u';
      assert t[9..] == kind;
    case DownProj =>
      assert t == ".down_proj." + kind;
      assert t[1] == 'd';
      assert t[11..] == kind;
  }
}
