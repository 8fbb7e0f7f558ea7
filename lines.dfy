/** Lines of a text: the behaviour of `s.split('\n')` and `pieces.join('\n')`
    on strings, which the Shift+Tab editor uses to cut a selection into lines. */
module Lines {

  const NewLine: char := '\n'

  /** Number of line feeds in `s`. */
  function CountNewLines(s: string): nat
  {
    if s == [] then 0
    else (if s[0] == NewLine then 1 else 0) + CountNewLines(s[1..])
  }

  /** `s.split('\n')`: the pieces of `s` between line feeds. The empty
      string splits into one empty piece, and no piece holds a line feed. */
  function Split(s: string): (r: seq<string>)
    ensures |r| >= 1
    ensures forall i :: 0 <= i < |r| ==> NewLine !in r[i]
  {
    if s == [] then [""]
    else
      var rest := Split(s[1..]);
      if s[0] == NewLine then [""] + rest
      else [[s[0]] + rest[0]] + rest[1..]
  }

  /** `pieces.join('\n')`: an empty list joins to "", and otherwise the
      joined text starts with the first piece. */
  function Join(pieces: seq<string>): (r: string)
    ensures |pieces| >= 1 ==> |pieces[0]| <= |r| && r[..|pieces[0]|] == pieces[0]
  {
    if |pieces| == 0 then ""
    else if |pieces| == 1 then pieces[0]
    else pieces[0] + [NewLine] + Join(pieces[1..])
  }

  /** Splitting yields one more piece than there are line feeds. */
  lemma {:induction false} SplitCount(s: string)
    ensures |Split(s)| == CountNewLines(s) + 1
  {
    if s != [] {
      SplitCount(s[1..]);
    }
  }

  /** Joining the pieces gives back the split string. */
  lemma {:induction false} JoinOfSplit(s: string)
    ensures Join(Split(s)) == s
  {
    if s != [] {
      var rest := Split(s[1..]);
      JoinOfSplit(s[1..]);
      if s[0] == NewLine {
        assert Split(s) == [""] + rest;
        assert Join(Split(s)) == "" + [NewLine] + Join(rest);
        assert s == [s[0]] + s[1..];
      } else if |rest| == 1 {
        assert Split(s) == [[s[0]] + rest[0]];
        assert s == [s[0]] + s[1..];
      } else {
        var pieces := Split(s);
        assert pieces == [[s[0]] + rest[0]] + rest[1..];
        assert pieces[1..] == rest[1..];
        calc {
          Join(pieces);
          ([s[0]] + rest[0]) + [NewLine] + Join(rest[1..]);
          [s[0]] + (rest[0] + [NewLine] + Join(rest[1..]));
          [s[0]] + Join(rest);
          s;
        }
      }
    }
  }

  /** A prefix without a line feed is glued onto the first piece of what follows. */
  lemma {:induction false} SplitPrefix(x: string, t: string)
    requires NewLine !in x
    ensures Split(x + t) == [x + Split(t)[0]] + Split(t)[1..]
  {
    if x != [] {
      SplitPrefix(x[1..], t);
      assert (x + t)[1..] == x[1..] + t;
      assert (x + t)[0] == x[0];
      assert [x[0]] + (x[1..] + Split(t)[0]) == x + Split(t)[0];
    } else {
      var r := Split(t);
      assert x + t == t;
      assert x + r[0] == r[0];
      assert r == [r[0]] + r[1..];
    }
  }

  /** Pieces free of line feeds survive a join followed by a split. */
  lemma {:induction false} SplitOfJoin(pieces: seq<string>)
    requires |pieces| >= 1
    requires forall i :: 0 <= i < |pieces| ==> NewLine !in pieces[i]
    ensures Split(Join(pieces)) == pieces
  {
    var x := pieces[0];
    if |pieces| == 1 {
      SplitPrefix(x, "");
      assert x + "" == x;
    } else {
      var tail := pieces[1..];
      SplitOfJoin(tail);
      var t := [NewLine] + Join(tail);
      assert Join(pieces) == x + t;
      SplitPrefix(x, t);
      assert t[1..] == Join(tail);
      assert Split(t) == [""] + tail;
      assert x + "" == x;
      assert pieces == [x] + tail;
    }
  }

  /** Appending a piece adds a line feed and that piece. */
  lemma {:induction false} JoinSnoc(pieces: seq<string>, x: string)
    requires |pieces| >= 1
    ensures Join(pieces + [x]) == Join(pieces) + [NewLine] + x
  {
    if |pieces| > 1 {
      JoinSnoc(pieces[1..], x);
      assert (pieces + [x])[1..] == pieces[1..] + [x];
    }
  }
}
