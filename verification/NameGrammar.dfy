/** Which names the three families take for theirs: exactly those their regular expressions spell. */
module NameGrammar {
  import opened Common
  import opened TensorNames
  import opened ExpertFamilies
  import opened FamilyContracts
  import P = PleFamily

  /** A non-empty run of digits with this value; leading zeros and other scripts' digits included. */
  ghost predicate Numeral(d: string, n: nat, nd: DigitTable) {
    d != "" && (forall i :: 0 <= i < |d| ==> nd(d[i]).Some?) && Value(d, nd) == n
  }

  lemma NumeralIsRead(d: string, n: nat, rest: string, nd: DigitTable)
    requires IsDigitTable(nd) && Numeral(d, n, nd) && rest != "" && rest[0] == '.'
    ensures ReadNumber(d + rest, nd) == Some((n, rest))
  {
    DigitRunOf(d, rest, nd);
    assert (d + rest)[..|d|] == d && (d + rest)[|d|..] == rest;
  }

  lemma ReadIsNumeral(s: string, nd: DigitTable) returns (d: string)
    requires ReadNumber(s, nd).Some?
    ensures Numeral(d, ReadNumber(s, nd).value.0, nd) && s == d + ReadNumber(s, nd).value.1
  {
    d := s[..DigitRun(s, nd)];
  }

  /** Prefix, a number, `.mlp.experts.`, a number, and the rest. */
  ghost predicate Spells(name: string, prefix: string, layer: nat, expert: nat, tail: string, nd: DigitTable) {
    exists a, b :: Numeral(a, layer, nd) && Numeral(b, expert, nd) && SpelledBy(name, prefix, a, b, tail)
  }

  predicate SpelledBy(name: string, prefix: string, a: string, b: string, tail: string) {
    name == prefix + (a + (".mlp.experts." + (b + tail)))
  }

  lemma SpelledIsMatched(
    name: string, prefix: string, a: string, b: string, layer: nat, expert: nat, tail: string, nd: DigitTable)
    requires IsDigitTable(nd) && tail != "" && tail[0] == '.'
    requires Numeral(a, layer, nd) && Numeral(b, expert, nd) && SpelledBy(name, prefix, a, b, tail)
    ensures MatchExpert(prefix, name, nd) == Some((layer, expert, tail))
  {
    var inner := b + tail;
    var rest := MID + inner;
    assert name[|prefix|..] == a + rest;
    assert MID[0] == '.' && rest[0] == '.';
    NumeralIsRead(a, layer, rest, nd);
    assert rest[|MID|..] == inner;
    NumeralIsRead(b, expert, tail, nd);
  }

  lemma MatchedIsSpelled(name: string, prefix: string, nd: DigitTable)
    requires MatchExpert(prefix, name, nd).Some?
    ensures
      var (layer, expert, tail) := MatchExpert(prefix, name, nd).value;
      Spells(name, prefix, layer, expert, tail, nd)
  {
    var (layer, expert, tail) := MatchExpert(prefix, name, nd).value;
    var a := ReadIsNumeral(name[|prefix|..], nd);
    var rest := ReadNumber(name[|prefix|..], nd).value.1;
    var b := ReadIsNumeral(rest[|MID|..], nd);
    assert rest == MID + (b + tail);
    assert SpelledBy(name, prefix, a, b, tail);
  }

  lemma ExpertGrammar(name: string, prefix: string, layer: nat, expert: nat, tail: string, nd: DigitTable)
    requires IsDigitTable(nd) && tail != "" && tail[0] == '.'
    ensures MatchExpert(prefix, name, nd) == Some((layer, expert, tail)) <==>
            Spells(name, prefix, layer, expert, tail, nd)
  {
    if MatchExpert(prefix, name, nd) == Some((layer, expert, tail)) {
      MatchedIsSpelled(name, prefix, nd);
    }
    if Spells(name, prefix, layer, expert, tail, nd) {
      var a, b :| Numeral(a, layer, nd) && Numeral(b, expert, nd) && SpelledBy(name, prefix, a, b, tail);
      SpelledIsMatched(name, prefix, a, b, layer, expert, tail, nd);
    }
  }

  lemma ProjExactly(tail: string, p: Proj, rest: string)
    ensures MatchProj(tail) == Some((p, rest)) <==> tail == ProjSpelled(p) + rest
  {
    if tail == ProjSpelled(p) + rest {
      ProjTailSpelled(p, rest);
      MatchProjTail(p, rest);
    }
  }

  lemma KindExactly(s: string, k: Kind)
    ensures MatchKind(s) == Some(k) <==> s == KindSpelled(k)
  {
    if s == KindSpelled(k) {
      MatchKindName(k);
    }
  }

  /** A final line feed is let pass after the kind of an MTP name, and after a PLE name. */
  predicate LastFeed(feed: string) { feed == "" || feed == "\n" }

  lemma MtpKindExactly(s: string, k: MtpKind)
    ensures MatchMtpKind(s) == Some(k) <==> s == MtpKindSpelled(k) || s == MtpKindSpelled(k) + "\n"
  {
    assert |"weight"| == 6 && |"weight\n"| == 7 && |"weight_scale_inv"| == 16 && |"weight_scale_inv\n"| == 17;
    assert "weight" + "\n" == "weight\n" && "weight_scale_inv" + "\n" == "weight_scale_inv\n";
  }

  /** The names taken for NVFP4 expert tensors, with any numbers. */
  lemma MainGrammar(name: string, layer: nat, expert: nat, p: Proj, k: Kind, nd: DigitTable)
    requires IsDigitTable(nd)
    ensures MatchMain(name, nd) == Some((layer, expert, p, k)) <==>
            Spells(name, "model.language_model.layers.", layer, expert, ProjSpelled(p) + KindSpelled(k), nd)
  {
    MainTailGrammar(name, layer, expert, p, k, nd);
    if MatchMain(name, nd) == Some((layer, expert, p, k)) {
      var found := MatchExpert(MAIN_PREFIX, name, nd).value.2;
      var rest := MatchProj(found).value.1;
      ProjExactly(found, p, rest);
      KindExactly(rest, k);
    }
  }

  lemma MainTailGrammar(name: string, layer: nat, expert: nat, p: Proj, k: Kind, nd: DigitTable)
    requires IsDigitTable(nd)
    ensures
      var tail := ProjSpelled(p) + KindSpelled(k);
      && (MatchExpert(MAIN_PREFIX, name, nd) == Some((layer, expert, tail)) <==>
          Spells(name, "model.language_model.layers.", layer, expert, tail, nd))
      && MatchMainTail(tail) == Some((p, k))
  {
    var tail := ProjSpelled(p) + KindSpelled(k);
    ProjExactly(tail, p, KindSpelled(k));
    KindExactly(KindSpelled(k), k);
    ExpertGrammar(name, MAIN_PREFIX, layer, expert, tail, nd);
  }

  /** The names taken for MTP tensors, of any layer. */
  lemma MtpGrammar(name: string, layer: nat, expert: nat, p: Proj, k: MtpKind, nd: DigitTable)
    requires IsDigitTable(nd)
    ensures MatchMtp(name, nd) == Some((layer, expert, p, k)) <==>
            || Spells(name, "mtp.layers.", layer, expert, ProjSpelled(p) + MtpKindSpelled(k), nd)
            || Spells(name, "mtp.layers.", layer, expert, ProjSpelled(p) + (MtpKindSpelled(k) + "\n"), nd)
  {
    MtpTailGrammar(name, layer, expert, p, k, MtpKindSpelled(k), nd);
    MtpTailGrammar(name, layer, expert, p, k, MtpKindSpelled(k) + "\n", nd);
    if MatchMtp(name, nd) == Some((layer, expert, p, k)) {
      var found := MatchExpert(MTP_PREFIX, name, nd).value.2;
      var rest := MatchProj(found).value.1;
      ProjExactly(found, p, rest);
      MtpKindExactly(rest, k);
    }
  }

  lemma MtpTailGrammar(name: string, layer: nat, expert: nat, p: Proj, k: MtpKind, kind: string, nd: DigitTable)
    requires IsDigitTable(nd) && (kind == MtpKindSpelled(k) || kind == MtpKindSpelled(k) + "\n")
    ensures
      var tail := ProjSpelled(p) + kind;
      && (MatchExpert(MTP_PREFIX, name, nd) == Some((layer, expert, tail)) <==>
          Spells(name, "mtp.layers.", layer, expert, tail, nd))
      && MatchMtpTail(tail) == Some((p, k))
  {
    var tail := ProjSpelled(p) + kind;
    ProjExactly(tail, p, kind);
    MtpKindExactly(kind, k);
    ExpertGrammar(name, MTP_PREFIX, layer, expert, tail, nd);
  }

  ghost predicate PleSpells(name: string, i: nat, feed: string, nd: DigitTable) {
    exists d :: Numeral(d, i, nd) && PleSpelledBy(name, d, feed)
  }

  predicate PleSpelledBy(name: string, d: string, feed: string) {
    name == P.PLE_PREFIX + P.SHARD + (d + (".weight" + feed))
  }

  /** The names taken for PLE shards. */
  lemma PleGrammar(name: string, i: nat, nd: DigitTable)
    requires IsDigitTable(nd)
    ensures P.MatchPle(name, nd) == Some(i) <==> PleSpells(name, i, "", nd) || PleSpells(name, i, "\n", nd)
  {
    var front := P.PLE_PREFIX + P.SHARD;
    assert P.WEIGHT == ".weight" && ".weight" + "" == ".weight";
    if P.MatchPle(name, nd) == Some(i) {
      var d := ReadIsNumeral(name[|front|..], nd);
      var rest := ReadNumber(name[|front|..], nd).value.1;
      assert PleSpelledBy(name, d, if rest == P.WEIGHT then "" else "\n");
    }
    if PleSpells(name, i, "", nd) {
      PleIsMatched(name, i, "", nd);
    }
    if PleSpells(name, i, "\n", nd) {
      PleIsMatched(name, i, "\n", nd);
    }
  }

  lemma PleIsMatched(name: string, i: nat, feed: string, nd: DigitTable)
    requires IsDigitTable(nd) && LastFeed(feed) && PleSpells(name, i, feed, nd)
    ensures P.MatchPle(name, nd) == Some(i)
  {
    var d :| Numeral(d, i, nd) && PleSpelledBy(name, d, feed);
    var rest := ".weight" + feed;
    assert rest[0] == '.';
    NumeralIsRead(d, i, rest, nd);
    assert name[|P.PLE_PREFIX + P.SHARD|..] == d + rest;
  }
}
