/**
  `convertBasicToExtended`: before parsing, the separators a basic-format
  string leaves out (`-` in the date, `:` in the time and in a short offset)
  are inserted at fixed positions chosen by the styles alone, without looking
  at the string. The insertions go from the highest position to the lowest,
  so every position refers to the string as given.
 */
module ExtendedForm {
  import opened Options
  import opened Styles

  /** An NSMutableString: text edited in place. */
  class MutableString {
    var chars: seq<char>

    constructor (s: seq<char>)
      ensures chars == s
    {
      chars := s;
    }

    /** `insertString(_:atIndex:)`; an index past the end raises, so it must be within the string. */
    method InsertString(t: seq<char>, index: nat)
      requires index <= |chars|
      modifies this
      ensures chars == old(chars)[..index] + t + old(chars)[index..]
    {
      chars := chars[..index] + t + chars[index..];
    }
  }

  datatype Insertion = Insertion(index: nat, sep: char)

  function Inserted(s: seq<char>, a: Insertion): (r: seq<char>)
    requires a.index <= |s|
    ensures |r| == |s| + 1 && r[a.index] == a.sep
  {
    s[..a.index] + [a.sep] + s[a.index..]
  }

  /** Each insertion in turn lands within the string as it stands at that moment. */
  predicate Fits(s: seq<char>, ins: seq<Insertion>)
    decreases |ins|
  {
    |ins| == 0 || (ins[0].index <= |s| && Fits(Inserted(s, ins[0]), ins[1..]))
  }

  function Apply(s: seq<char>, ins: seq<Insertion>): seq<char>
    requires Fits(s, ins)
    decreases |ins|
  {
    if |ins| == 0 then s else Apply(Inserted(s, ins[0]), ins[1..])
  }

  /** `checkAndUpdateTimeZone`: a `:` at `index`, between the hours and minutes of a short offset. */
  function ZoneInsertions(cfg: Config, index: nat): seq<Insertion> {
    if cfg.timeZoneStyle == ShortZone then [Insertion(index, ':')] else []
  }

  /** `checkAndUpdateTimeStyle` for a time of day whose hour starts at `index`. */
  function TimeInsertions(cfg: Config, index: nat): seq<Insertion> {
    match cfg.timeStyle
    case LongTime => ZoneInsertions(cfg, index + 9)
    case ShortTime => ZoneInsertions(cfg, index + 7) + [Insertion(index + 2, ':'), Insertion(index, ':')]
    case NoTime => []
  }

  /** The insertions `convertBasicToExtended` makes, in the order it makes them. */
  function Insertions(cfg: Config): seq<Insertion> {
    match cfg.dateStyle
    case CalendarLong => TimeInsertions(cfg, 13)
    case CalendarShort => TimeInsertions(cfg, 11) + [Insertion(6, '-'), Insertion(4, '-')]
    case OrdinalLong => TimeInsertions(cfg, 11)
    case OrdinalShort => TimeInsertions(cfg, 10) + [Insertion(4, '-')]
    case WeekLong => TimeInsertions(cfg, 13)
    case WeekShort => TimeInsertions(cfg, 11) + [Insertion(7, '-'), Insertion(4, '-')]
  }

  /** The extended string the scanner reads. */
  function BasicToExtended(cfg: Config, s: seq<char>): seq<char>
    requires Fits(s, Insertions(cfg))
  {
    Apply(s, Insertions(cfg))
  }

  // ---------------------------------------------------------------------------
  // The in-place rewriting

  method CheckAndUpdateTimeZone(cfg: Config, str: MutableString, index: nat)
    requires Fits(str.chars, ZoneInsertions(cfg, index))
    modifies str
    ensures str.chars == Apply(old(str.chars), ZoneInsertions(cfg, index))
  {
    if cfg.timeZoneStyle == ShortZone {
      str.InsertString(":", index);
    }
  }

  method CheckAndUpdateTimeStyle(cfg: Config, str: MutableString, index: nat)
    requires Fits(str.chars, TimeInsertions(cfg, index))
    modifies str
    ensures str.chars == Apply(old(str.chars), TimeInsertions(cfg, index))
  {
    if cfg.timeStyle == LongTime {
      CheckAndUpdateTimeZone(cfg, str, index + 9);
    } else if cfg.timeStyle == ShortTime {
      var zone := ZoneInsertions(cfg, index + 7);
      var rest := [Insertion(index + 2, ':'), Insertion(index, ':')];
      ApplyConcat(str.chars, zone, rest);
      CheckAndUpdateTimeZone(cfg, str, index + 7);
      ghost var zoned := str.chars;
      ApplyTwo(zoned, rest[0], rest[1]);
      str.InsertString(":", index + 2);
      str.InsertString(":", index);
    }
  }

  method ConvertBasicToExtended(cfg: Config, s: seq<char>) returns (r: seq<char>)
    requires Fits(s, Insertions(cfg))
    ensures r == BasicToExtended(cfg, s)
  {
    var str := new MutableString(s);
    match cfg.dateStyle {
    case CalendarLong =>
      CheckAndUpdateTimeStyle(cfg, str, 13);
    case CalendarShort =>
      ApplyConcat(s, TimeInsertions(cfg, 11), [Insertion(6, '-'), Insertion(4, '-')]);
      CheckAndUpdateTimeStyle(cfg, str, 11);
      str.InsertString("-", 6);
      str.InsertString("-", 4);
    case OrdinalLong =>
      CheckAndUpdateTimeStyle(cfg, str, 11);
    case OrdinalShort =>
      ApplyConcat(s, TimeInsertions(cfg, 10), [Insertion(4, '-')]);
      CheckAndUpdateTimeStyle(cfg, str, 10);
      str.InsertString("-", 4);
    case WeekLong =>
      CheckAndUpdateTimeStyle(cfg, str, 13);
    case WeekShort =>
      ApplyConcat(s, TimeInsertions(cfg, 11), [Insertion(7, '-'), Insertion(4, '-')]);
      CheckAndUpdateTimeStyle(cfg, str, 11);
      str.InsertString("-", 7);
      str.InsertString("-", 4);
    }
    r := str.chars;
  }

  lemma ApplyOne(s: seq<char>, a: Insertion)
    ensures Fits(s, [a]) <==> a.index <= |s|
    ensures Fits(s, [a]) ==> Apply(s, [a]) == Inserted(s, a)
  {
    assert [a][1..] == [];
  }

  lemma ApplyTwo(s: seq<char>, a: Insertion, b: Insertion)
    ensures Fits(s, [a, b]) <==> a.index <= |s| && b.index <= |s| + 1
    ensures Fits(s, [a, b]) ==> Apply(s, [a, b]) == Inserted(Inserted(s, a), b)
  {
    assert [a, b][1..] == [b];
    if a.index <= |s| {
      ApplyOne(Inserted(s, a), b);
    }
  }

  /** Inserting at the boundary of two strings puts the character between them. */
  lemma InsertAtJoin(a: seq<char>, b: seq<char>, c: char)
    ensures Inserted(a + b, Insertion(|a|, c)) == a + [c] + b
  {
    assert (a + b)[..|a|] == a && (a + b)[|a|..] == b;
  }

  /** Applying two lists of insertions one after the other is applying their concatenation. */
  lemma {:induction false} ApplyConcat(s: seq<char>, a: seq<Insertion>, b: seq<Insertion>)
    ensures Fits(s, a + b) <==> Fits(s, a) && Fits(Apply(s, a), b)
    ensures Fits(s, a + b) ==> Apply(s, a + b) == Apply(Apply(s, a), b)
    decreases |a|
  {
    if |a| == 0 {
      assert a + b == b;
    } else {
      assert (a + b)[0] == a[0] && (a + b)[1..] == a[1..] + b;
      if a[0].index <= |s| {
        ApplyConcat(Inserted(s, a[0]), a[1..], b);
      }
    }
  }

  // ---------------------------------------------------------------------------
  // Properties of the rewriting

  predicate Descending(ins: seq<Insertion>) {
    forall i, j :: 0 <= i < j < |ins| ==> ins[i].index > ins[j].index
  }

  /** The positions are strictly decreasing, and only separators are inserted. */
  lemma InsertionsDescend(cfg: Config)
    ensures Descending(Insertions(cfg))
    ensures forall a :: a in Insertions(cfg) ==> a.sep == '-' || a.sep == ':'
  {
    var t := match cfg.dateStyle
      case CalendarLong => 13 case WeekLong => 13 case OrdinalLong => 11
      case CalendarShort => 11 case WeekShort => 11 case OrdinalShort => 10;
    var date := match cfg.dateStyle
      case CalendarShort => [Insertion(6, '-'), Insertion(4, '-')]
      case WeekShort => [Insertion(7, '-'), Insertion(4, '-')]
      case OrdinalShort => [Insertion(4, '-')]
      case _ => [];
    assert Insertions(cfg) == TimeInsertions(cfg, t) + date;
    assert Descending(date) && forall a :: a in date ==> a.sep == '-' && a.index <= 7;
    TimeInsertionsDescend(cfg, t);
    DescendingConcat(TimeInsertions(cfg, t), date);
  }

  lemma TimeInsertionsDescend(cfg: Config, t: nat)
    ensures Descending(TimeInsertions(cfg, t))
    ensures forall a :: a in TimeInsertions(cfg, t) ==> a.sep == ':' && a.index >= t
  {
    if cfg.timeStyle == ShortTime {
      DescendingConcat(ZoneInsertions(cfg, t + 7), [Insertion(t + 2, ':'), Insertion(t, ':')]);
    }
  }

  lemma DescendingConcat(a: seq<Insertion>, b: seq<Insertion>)
    requires Descending(a) && Descending(b)
    requires forall x, y :: x in a && y in b ==> x.index > y.index
    ensures Descending(a + b)
  {
    forall i, j | 0 <= i < j < |a + b|
      ensures (a + b)[i].index > (a + b)[j].index
    {
      if j >= |a| && i < |a| {
        assert (a + b)[i] in a && (a + b)[j] in b;
      }
    }
  }

  /**
    Because the positions decrease, every insertion stays within the string
    exactly when the first (highest) one lies within the string as given.
   */
  lemma {:induction false} FitsWhenFirstFits(s: seq<char>, ins: seq<Insertion>)
    requires Descending(ins)
    ensures Fits(s, ins) <==> |ins| == 0 || ins[0].index <= |s|
    decreases |ins|
  {
    if |ins| > 1 && ins[0].index <= |s| {
      FitsWhenFirstFits(Inserted(s, ins[0]), ins[1..]);
    }
  }

  /** The shortest string the rewriting accepts for the styles: the highest insert position. */
  function MinimumLength(cfg: Config): (n: nat)
    ensures forall s :: Fits(s, Insertions(cfg)) <==> |s| >= n
  {
    InsertionsDescend(cfg);
    forall s ensures Fits(s, Insertions(cfg)) <==> |s| >= (if |Insertions(cfg)| == 0 then 0 else Insertions(cfg)[0].index) {
      FitsWhenFirstFits(s, Insertions(cfg));
    }
    if |Insertions(cfg)| == 0 then 0 else Insertions(cfg)[0].index
  }

  /** Each insertion adds one character. */
  lemma {:induction false} ApplyLength(s: seq<char>, ins: seq<Insertion>)
    requires Fits(s, ins)
    ensures |Apply(s, ins)| == |s| + |ins|
    decreases |ins|
  {
    if |ins| > 0 {
      ApplyLength(Inserted(s, ins[0]), ins[1..]);
    }
  }

  function Removed(s: seq<char>, a: Insertion): Option<seq<char>> {
    if a.index < |s| && s[a.index] == a.sep then Some(s[..a.index] + s[a.index + 1..]) else None
  }

  /**
    Undoes a list of insertions, last one first, deleting each separator from
    where it was put; nothing when a separator is not where expected.
   */
  function Unapply(r: seq<char>, ins: seq<Insertion>): Option<seq<char>>
    decreases |ins|
  {
    if |ins| == 0 then Some(r)
    else match Unapply(r, ins[1..])
      case None => None
      case Some(m) => Removed(m, ins[0])
  }

  /** The rewriting only inserts: deleting the separators it put in gives back the input. */
  lemma {:induction false} UnapplyApply(s: seq<char>, ins: seq<Insertion>)
    requires Fits(s, ins)
    ensures Unapply(Apply(s, ins), ins) == Some(s)
    decreases |ins|
  {
    if |ins| > 0 {
      var a := ins[0];
      UnapplyApply(Inserted(s, a), ins[1..]);
      assert Inserted(s, a)[..a.index] + Inserted(s, a)[a.index + 1..] == s;
    }
  }

  /** `convertBasicToExtended` adds one character per separator, and removing them restores its input. */
  lemma BasicToExtendedInsertsOnly(cfg: Config, s: seq<char>)
    requires Fits(s, Insertions(cfg))
    ensures |BasicToExtended(cfg, s)| == |s| + |Insertions(cfg)|
    ensures Unapply(BasicToExtended(cfg, s), Insertions(cfg)) == Some(s)
  {
    ApplyLength(s, Insertions(cfg));
    UnapplyApply(s, Insertions(cfg));
  }

  /**
    The rewriting leaves every string as it is exactly for an extended date
    style with no time, or with the long time style and any zone style but
    the short one.
   */
  lemma IdentityCases(cfg: Config)
    ensures Insertions(cfg) == [] <==>
      cfg.dateStyle.IsLong() && (cfg.timeStyle == NoTime || (cfg.timeStyle == LongTime && cfg.timeZoneStyle != ShortZone))
    ensures Insertions(cfg) == [] ==> forall s :: BasicToExtended(cfg, s) == s
  {
  }

  /** With the short calendar and time styles, `YYYYMMDDThhmmss` becomes `YYYY-MM-DDThh:mm:ss`. */
  lemma CalendarShortTimeShortExample(cfg: Config, s: seq<char>)
    requires cfg.dateStyle == CalendarShort && cfg.timeStyle == ShortTime && cfg.timeZoneStyle != ShortZone
    requires |s| >= 13
    ensures Fits(s, Insertions(cfg))
    ensures BasicToExtended(cfg, s) == s[..4] + "-" + s[4..6] + "-" + s[6..11] + ":" + s[11..13] + ":" + s[13..]
  {
    var ins := Insertions(cfg);
    assert ins == [Insertion(13, ':'), Insertion(11, ':'), Insertion(6, '-'), Insertion(4, '-')];
    var p0, p1, p2, p3, p4 := s[..4], s[4..6], s[6..11], s[11..13], s[13..];
    SplitFive(s, 4, 6, 11, 13);
    InsertFourJoins(p0, p1, p2, p3, p4, '-', '-', ':', ':');
  }

  lemma SplitFive(s: seq<char>, i: nat, j: nat, k: nat, l: nat)
    requires i <= j <= k <= l <= |s|
    ensures s == s[..i] + s[i..j] + s[j..k] + s[k..l] + s[l..]
  {
  }

  /** Four insertions, highest first, each at a boundary between two of five pieces. */
  lemma InsertTwoJoins(p0: seq<char>, p1: seq<char>, p2: seq<char>, c0: char, c1: char)
    ensures Fits(p0 + p1 + p2, [Insertion(|p0 + p1|, c1), Insertion(|p0|, c0)])
    ensures Apply(p0 + p1 + p2, [Insertion(|p0 + p1|, c1), Insertion(|p0|, c0)]) == p0 + [c0] + p1 + [c1] + p2
  {
    var s := p0 + p1 + p2;
    InsertAtJoin(p0 + p1, p2, c1);
    var s1 := (p0 + p1) + [c1] + p2;
    assert s1 == p0 + (p1 + [c1] + p2);
    InsertAtJoin(p0, p1 + [c1] + p2, c0);
    ApplyTwo(s, Insertion(|p0 + p1|, c1), Insertion(|p0|, c0));
  }

  lemma InsertFourJoins(p0: seq<char>, p1: seq<char>, p2: seq<char>, p3: seq<char>, p4: seq<char>,
                        c0: char, c1: char, c2: char, c3: char)
    ensures var ins := [Insertion(|p0 + p1 + p2 + p3|, c3), Insertion(|p0 + p1 + p2|, c2),
                        Insertion(|p0 + p1|, c1), Insertion(|p0|, c0)];
      && Fits(p0 + p1 + p2 + p3 + p4, ins)
      && Apply(p0 + p1 + p2 + p3 + p4, ins) == p0 + [c0] + p1 + [c1] + p2 + [c2] + p3 + [c3] + p4
  {
    var ins := [Insertion(|p0 + p1 + p2 + p3|, c3), Insertion(|p0 + p1 + p2|, c2),
                Insertion(|p0 + p1|, c1), Insertion(|p0|, c0)];
    var s := p0 + p1 + p2 + p3 + p4;
    InsertTwoJoins(p0 + p1 + p2, p3, p4, c2, c3);
    var s2 := (p0 + p1 + p2) + [c2] + p3 + [c3] + p4;
    var tail := p2 + [c2] + p3 + [c3] + p4;
    assert s2 == p0 + p1 + tail;
    InsertTwoJoins(p0, p1, tail, c0, c1);
    assert p0 + [c0] + p1 + [c1] + tail == p0 + [c0] + p1 + [c1] + p2 + [c2] + p3 + [c3] + p4;
    ApplyConcat(s, ins[..2], ins[2..]);
    assert ins == ins[..2] + ins[2..];
    assert ins[..2] == [Insertion(|(p0 + p1 + p2) + p3|, c3), Insertion(|p0 + p1 + p2|, c2)];
    assert ins[2..] == [Insertion(|p0 + p1|, c1), Insertion(|p0|, c0)];
  }
}
