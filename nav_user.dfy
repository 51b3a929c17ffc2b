/**
 * The user block at the foot of both sidebars: the avatar's fallback
 * initials, computed from the user's name as
 * split on ' ', first character of each piece, joined, upper-cased,
 * and the width of the name block, chosen from the main sidebar's `expanded`.
 */
module NavUser {
  import UseSidebar

  /** The number of spaces in `s`. */
  function SpaceCount(s: string): (n: nat)
    decreases |s|
  {
    if s == [] then 0 else (if s[0] == ' ' then 1 else 0) + SpaceCount(s[1..])
  }

  /**
   * `s.split(' ')`: the pieces between single spaces, empty pieces included
   * (a leading, trailing or doubled space gives an empty piece).
   */
  function Split(s: string): (pieces: seq<string>)
    ensures |pieces| == SpaceCount(s) + 1
    ensures forall k :: 0 <= k < |pieces| ==> ' ' !in pieces[k]
    decreases |s|
  {
    if s == [] then [""]
    else
      var rest := Split(s[1..]);
      if s[0] == ' ' then [""] + rest
      else [[s[0]] + rest[0]] + rest[1..]
  }

  /** `pieces.join(' ')`. */
  function Join(pieces: seq<string>): (s: string)
    decreases |pieces|
  {
    if pieces == [] then ""
    else if |pieces| == 1 then pieces[0]
    else pieces[0] + " " + Join(pieces[1..])
  }

  /** Joining the pieces with single spaces gives back the original string. */
  lemma {:induction false} JoinSplit(s: string)
    ensures Join(Split(s)) == s
    decreases |s|
  {
    if s != [] {
      var rest := Split(s[1..]);
      JoinSplit(s[1..]);
      if s[0] == ' ' {
        assert ([""] + rest)[1..] == rest;
        assert Join(Split(s)) == "" + " " + Join(rest);
      } else {
        var pieces := [[s[0]] + rest[0]] + rest[1..];
        assert pieces[1..] == rest[1..];
        if |rest| == 1 {
          assert Join(Split(s)) == [s[0]] + Join(rest);
        } else {
          assert Join(rest) == rest[0] + " " + Join(rest[1..]);
          assert Join(Split(s)) == [s[0]] + Join(rest);
        }
        assert s == [s[0]] + s[1..];
      }
    }
  }

  /** A space-free prefix becomes part of the first piece. */
  lemma {:induction false} SplitPrefix(x: string, t: string)
    requires ' ' !in x
    ensures Split(x + t) == [x + Split(t)[0]] + Split(t)[1..]
    decreases |x|
  {
    if x == [] {
      assert x + t == t;
      assert x + Split(t)[0] == Split(t)[0];
      assert Split(t) == [Split(t)[0]] + Split(t)[1..];
    } else {
      assert (x + t)[0] == x[0];
      assert (x + t)[1..] == x[1..] + t;
      SplitPrefix(x[1..], t);
      assert [x[0]] + (x[1..] + Split(t)[0]) == x + Split(t)[0];
    }
  }

  /** Splitting the join of nonempty-many space-free pieces gives back the pieces. */
  lemma {:induction false} SplitJoin(pieces: seq<string>)
    requires |pieces| >= 1
    requires forall k :: 0 <= k < |pieces| ==> ' ' !in pieces[k]
    ensures Split(Join(pieces)) == pieces
    decreases |pieces|
  {
    var x := pieces[0];
    if |pieces| == 1 {
      assert Join(pieces) == x + "";
      SplitPrefix(x, "");
      assert x + "" == x;
    } else {
      var j := Join(pieces[1..]);
      SplitJoin(pieces[1..]);
      assert Join(pieces) == x + (" " + j);
      SplitPrefix(x, " " + j);
      assert (" " + j)[0] == ' ' && (" " + j)[1..] == j;
      assert Split(" " + j) == [""] + pieces[1..];
      assert x + "" == x;
      assert pieces == [x] + pieces[1..];
    }
  }

  /** `n[0]` of one piece as `join('')` renders it: its first character, or nothing when it is empty. */
  function Head(piece: string): (h: string)
  {
    if piece == [] then "" else [piece[0]]
  }

  /** `pieces.map(n => n[0]).join('')`. */
  function Heads(pieces: seq<string>): (h: string)
    decreases |pieces|
  {
    if pieces == [] then "" else Head(pieces[0]) + Heads(pieces[1..])
  }

  /** `toUpperCase` on one ASCII character. */
  function UpperChar(c: char): (u: char)
  {
    if 'a' <= c <= 'z' then (c as int - 32) as char else c
  }

  /**
   * `toUpperCase` on ASCII text: the result has no lower-case letter, each
   * lower-case letter becomes its capital, and every other character stays.
   */
  function Upper(s: string): (r: string)
    ensures |r| == |s|
    ensures forall i :: 0 <= i < |r| ==> !('a' <= r[i] <= 'z')
    ensures forall i :: 0 <= i < |s| && 'a' <= s[i] <= 'z' ==> r[i] as int == s[i] as int - 32
    ensures forall i :: 0 <= i < |s| && !('a' <= s[i] <= 'z') ==> r[i] == s[i]
  {
    seq(|s|, i requires 0 <= i < |s| => UpperChar(s[i]))
  }

  /** Upper-casing text that is already upper-case changes nothing. */
  lemma UpperIdempotent(s: string)
    ensures Upper(Upper(s)) == Upper(s)
  {
  }

  /** The avatar fallback. The trigger and the dropdown label both show this value. */
  function Initials(name: string): (initials: string)
  {
    Upper(Heads(Split(name)))
  }

  /** The number of nonempty pieces. */
  function NonEmptyCount(pieces: seq<string>): (n: nat)
    decreases |pieces|
  {
    if pieces == [] then 0 else (if pieces[0] == [] then 0 else 1) + NonEmptyCount(pieces[1..])
  }

  /** Each nonempty piece gives one character, each empty piece none. */
  lemma {:induction false} HeadsLength(pieces: seq<string>)
    ensures |Heads(pieces)| == NonEmptyCount(pieces) <= |pieces|
    decreases |pieces|
  {
    if pieces != [] {
      HeadsLength(pieces[1..]);
    }
  }

  lemma {:induction false} HeadsAppend(a: seq<string>, b: seq<string>)
    ensures Heads(a + b) == Heads(a) + Heads(b)
    decreases |a|
  {
    if a == [] {
      assert a + b == b;
    } else {
      assert (a + b)[0] == a[0];
      assert (a + b)[1..] == a[1..] + b;
      HeadsAppend(a[1..], b);
    }
  }

  /** An empty piece, wherever it stands, contributes nothing to the initials. */
  lemma EmptyPieceContributesNothing(a: seq<string>, b: seq<string>)
    ensures Heads(a + [""] + b) == Heads(a + b)
  {
    HeadsAppend(a, [""] + b);
    assert ([""] + b)[1..] == b;
    assert a + [""] + b == a + ([""] + b);
    HeadsAppend(a, b);
  }

  /** The initials have one character per nonempty piece: at most one per piece of the split. */
  lemma InitialsLength(name: string)
    ensures |Initials(name)| == NonEmptyCount(Split(name))
    ensures |Initials(name)| <= |Split(name)| == SpaceCount(name) + 1
  {
    HeadsLength(Split(name));
  }

  /**
   * An independent reading of `Heads(Split(s))`: the non-space characters
   * that stand at the start of `s` (when `atStart`) or right after a space.
   */
  function Starts(s: string, atStart: bool): (r: string)
    decreases |s|
  {
    if s == [] then ""
    else (if s[0] != ' ' && atStart then [s[0]] else "") + Starts(s[1..], s[0] == ' ')
  }

  /** The initials are the upper-cased characters that begin a word. */
  lemma {:induction false} HeadsAreWordStarts(s: string)
    ensures Heads(Split(s)) == Starts(s, true)
    ensures Heads(Split(s)[1..]) == Starts(s, false)
    decreases |s|
  {
    if s != [] {
      var rest := Split(s[1..]);
      HeadsAreWordStarts(s[1..]);
      if s[0] == ' ' {
        assert ([""] + rest)[1..] == rest;
        assert Heads([""] + rest) == Heads(rest);
      } else {
        var pieces := [[s[0]] + rest[0]] + rest[1..];
        assert pieces[1..] == rest[1..];
        assert Heads(pieces) == [s[0]] + Heads(rest[1..]);
      }
    }
  }

  lemma InitialsAreWordStarts(name: string)
    ensures Initials(name) == Upper(Starts(name, true))
  {
    HeadsAreWordStarts(name);
  }

  /** The initials of a name made of space-free pieces are read off the pieces. */
  lemma InitialsOfJoin(pieces: seq<string>)
    requires |pieces| >= 1
    requires forall k :: 0 <= k < |pieces| ==> ' ' !in pieces[k]
    ensures Initials(Join(pieces)) == Upper(Heads(pieces))
  {
    SplitJoin(pieces);
  }

  /** The user both sidebars show. */
  const DemoUserName := "Gonzalo Perez"
  const DemoUserPieces := ["Gonzalo", "Perez"]

  lemma DemoUserNameIsJoin()
    ensures Join(DemoUserPieces) == DemoUserName
  {
  }

  lemma DemoUserPieceHeads()
    ensures Upper(Heads(DemoUserPieces)) == "GP"
  {
  }

  lemma DemoUserInitials()
    ensures Initials(DemoUserName) == "GP"
  {
    assert ' ' !in DemoUserPieces[0] && ' ' !in DemoUserPieces[1];
    InitialsOfJoin(DemoUserPieces);
    DemoUserNameIsJoin();
    DemoUserPieceHeads();
  }

  /** The width classes of the name block beside the avatar. */
  function NameBlockClass(expanded: bool): (cls: string)
    ensures expanded ==> cls == "w-52 ml-3"
    ensures !expanded ==> cls == "w-0"
  {
    if expanded then "w-52 ml-3" else "w-0"
  }

  /**
   * The name block reads the main sidebar's gate: it is shown at full width
   * before hydration, and afterwards exactly while the stored sidebar is expanded.
   */
  lemma NameBlockFollowsSidebarGate(isHydrated: bool, stored: bool)
    ensures !isHydrated ==> NameBlockClass(UseSidebar.ViewOf(isHydrated, stored).expanded) == "w-52 ml-3"
    ensures isHydrated ==> (NameBlockClass(UseSidebar.ViewOf(isHydrated, stored).expanded) == "w-52 ml-3" <==> stored)
    ensures isHydrated ==> (NameBlockClass(UseSidebar.ViewOf(isHydrated, stored).expanded) == "w-0" <==> !stored)
  {
  }
}
