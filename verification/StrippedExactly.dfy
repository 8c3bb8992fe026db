// What openvpn is given of a profile, directive by directive, in figures: all but
// user, group and, with several remotes, persist-remote-ip.
module StrippedExactly {
  import opened Common
  import opened Allowlist
  import opened ProfileReader
  import opened ProfileLines
  import opened Profile
  import opened Stripping

  /** The directive is not for openvpn. */
  predicate Goes(d: Directive, several: bool) {
    d.name == "user" || d.name == "group" || (several && Applied(d, "persist-remote-ip").Some?)
  }

  /** The same directive on the same line, whose block may have lost lines. */
  predicate Stays(d: Directive, e: Directive) {
    && e.name == d.name && e.args == d.args && e.line == d.line && e.inlined == d.inlined
    && (d.name != "connection" ==> e.body == d.body && e.children == d.children)
  }

  /** left is ds without the directives that go, in the same order, and so in each block. */
  ghost predicate LeftOf(ds: seq<Directive>, left: seq<Directive>, several: bool)
    decreases ds
  {
    if ds == [] then left == []
    else if Goes(ds[0], several) then LeftOf(ds[1..], left, several)
    else
      && left != [] && Stays(ds[0], left[0])
      && (ds[0].name == "connection" ==> LeftOf(ds[0].children, left[0].children, several))
      && LeftOf(ds[1..], left[1..], several)
  }

  lemma GoesIsStripped(d: Directive, several: bool)
    ensures Stripped(d, several) <==> Goes(d, several)
  {}

  lemma LeftMore(d: Directive, ds: seq<Directive>, k: Directive, tail: seq<Directive>, several: bool)
    requires LeftOf(ds, tail, several)
    requires !Goes(d, several) ==> Stays(d, k) && (d.name == "connection" ==> LeftOf(d.children, k.children, several))
    ensures LeftOf([d] + ds, if Goes(d, several) then tail else [k] + tail, several)
  {
    assert ([d] + ds)[0] == d && ([d] + ds)[1..] == ds && ([k] + tail)[0] == k && ([k] + tail)[1..] == tail;
    hide Goes, Stays;
  }

  /** The directives of a block have no blocks of their own. */
  lemma {:induction false} ChildrenAreLeft(ds: seq<Directive>, several: bool, drop: set<nat>)
    requires Childless(ds)
    ensures LeftOf(ds, Kept(ds, several, drop), several)
  {
    NothingKept(several, drop);
    if ds == [] {
      assert LeftOf(ds, [], several);
    } else {
      var d, tail := ds[0], Kept(ds[1..], several, drop);
      var k := KeptOne(d, several, drop);
      KeptUnfolds(ds, several, drop);
      KeptOneIs(d, several, drop);
      assert d in ds && forall e | e in ds[1..] :: e in ds;
      ChildrenAreLeft(ds[1..], several, drop);
      GoesIsStripped(d, several);
      assert LeftOf([], [], several);
      hide Kept, KeptOne, Stripped, Goes, LeftOf;
      LeftMore(d, ds[1..], k, tail, several);
    }
  }

  lemma {:induction false} KeptIsLeft(ds: seq<Directive>, several: bool, drop: set<nat>)
    requires Flat(ds)
    ensures LeftOf(ds, Kept(ds, several, drop), several)
  {
    NothingKept(several, drop);
    if ds == [] {
      assert LeftOf(ds, [], several);
    } else {
      var d, tail := ds[0], Kept(ds[1..], several, drop);
      var k := KeptOne(d, several, drop);
      KeptUnfolds(ds, several, drop);
      KeptOneIs(d, several, drop);
      assert d in ds && Flat(ds[1..]);
      KeptIsLeft(ds[1..], several, drop);
      ChildrenAreLeft(d.children, several, drop);
      GoesIsStripped(d, several);
      assert d.children == [] ==> LeftOf(d.children, d.children, several);
      hide Kept, KeptOne, Stripped, Goes, LeftOf;
      LeftMore(d, ds[1..], k, tail, several);
    }
  }

  /** Nothing that goes is among what is left, nor in a block of it. */
  lemma {:induction false} NoneLeft(ds: seq<Directive>, left: seq<Directive>, several: bool)
    requires LeftOf(ds, left, several) && Flat(ds)
    ensures forall e | InProfile(left, e) :: !Goes(e, several)
  {
    if ds != [] {
      var d := ds[0];
      assert Flat(ds[1..]) && d in ds;
      if Goes(d, several) {
        NoneLeft(ds[1..], left, several);
      } else {
        var k := left[0];
        NoneLeft(ds[1..], left[1..], several);
        if d.name == "connection" { NoneLeftInside(d.children, k.children, several); }
        assert left == [k] + left[1..] && !Goes(k, several);
        forall e | InProfile(left, e) ensures !Goes(e, several) {
          assert e == k || e in k.children || InProfile(left[1..], e);
        }
      }
    }
  }

  lemma {:induction false} NoneLeftInside(ds: seq<Directive>, left: seq<Directive>, several: bool)
    requires LeftOf(ds, left, several)
    ensures forall e | e in left :: !Goes(e, several)
  {
    if ds != [] {
      if Goes(ds[0], several) {
        NoneLeftInside(ds[1..], left, several);
      } else {
        NoneLeftInside(ds[1..], left[1..], several);
        assert left == [left[0]] + left[1..] && !Goes(left[0], several);
      }
    }
  }

  /**
   * The runtime config of an accepted profile of short lines reads as the profile
   * without its user and group and, if it names several remotes, without every
   * persist-remote-ip; the rest is in place, in each block too.
   */
  lemma RuntimeIsLeft(data: string)
    requires forall l | l in Lines(data) :: |l| <= 255
    requires Parsed(data).Ok? && Acceptable(Parsed(data).value)
    ensures var ds := Parsed(data).value;
      var read := Parsed(Runtime(data, DropOf(ds)));
      && read.Ok? && LeftOf(ds, read.value, |Remotes(ds)| > 1)
      && forall e | InProfile(read.value, e) :: !Goes(e, |Remotes(ds)| > 1)
  {
    var ds := Parsed(data).value;
    assert Short(data);
    ReadIsFlat(data);
    hide Parsed, Acceptable, Flat, Kept, Remotes, DropOf, LeftOf, Goes, Runtime, Short, Walk, Clean, InProfile;
    StrippingPreservesTheProfile(data);
    KeptIsLeft(ds, |Remotes(ds)| > 1, DropOf(ds));
    NoneLeft(ds, Kept(ds, |Remotes(ds)| > 1, DropOf(ds)), |Remotes(ds)| > 1);
  }

  lemma ReadIsFlat(data: string)
    requires Short(data) && Parsed(data).Ok?
    ensures Flat(Parsed(data).value)
  {
    NoNulIfParsed(data);
    LinesAreLines(data);
    hide Parsed, FileLines, Lines, Concat, Flat;
    ParsedByLine(Lines(data));
    FileFlat(Lines(data), 1);
  }
}
