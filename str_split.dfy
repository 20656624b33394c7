/** Python's `str.split(sep)` for a one-character separator. */
module StrSplit {

  /** The pieces of `s` between the occurrences of `sep`, in order. Like Python,
      this never returns an empty list: `""` splits into `[""]`, and two adjacent
      separators give an empty piece between them. */
  function Split(s: string, sep: char): (pieces: seq<string>)
    ensures |pieces| >= 1
    decreases |s|
  {
    if s == [] then [""]
    else
      var rest := Split(s[1..], sep);
      if s[0] == sep then [""] + rest
      else [[s[0]] + rest[0]] + rest[1..]
  }

  /** `sep.join(pieces)`. */
  function Join(pieces: seq<string>, sep: char): string
    requires |pieces| >= 1
  {
    if |pieces| == 1 then pieces[0] else pieces[0] + [sep] + Join(pieces[1..], sep)
  }

  /** Splitting loses nothing: the pieces hold no separator and joining them gives `s` back. */
  lemma {:induction false} JoinSplit(s: string, sep: char)
    ensures Join(Split(s, sep), sep) == s
    ensures forall i :: 0 <= i < |Split(s, sep)| ==> sep !in Split(s, sep)[i]
    decreases |s|
  {
    if s != [] {
      var rest := Split(s[1..], sep);
      JoinSplit(s[1..], sep);
      if s[0] == sep {
        assert ([""] + rest)[1..] == rest;
        assert s == [sep] + s[1..];
      } else {
        var pieces := [[s[0]] + rest[0]] + rest[1..];
        if |rest| == 1 {
          assert s == [s[0]] + s[1..];
        } else {
          assert pieces[1..] == rest[1..];
          assert Join(rest, sep) == rest[0] + [sep] + Join(rest[1..], sep);
          assert s == [s[0]] + s[1..];
        }
        forall i | 0 <= i < |pieces| ensures sep !in pieces[i] {
          if i > 0 { assert pieces[i] == rest[i]; }
        }
      }
    }
  }

  /** A separator-free prefix `p` glues onto the first piece of what follows it. */
  lemma {:induction false} SplitPrefix(p: string, t: string, sep: char)
    requires sep !in p
    ensures Split(p + t, sep) == [p + Split(t, sep)[0]] + Split(t, sep)[1..]
    decreases |p|
  {
    if p != [] {
      var q := Split(t, sep);
      var u := p[1..] + t;
      assert p + t == [p[0]] + u;
      SplitCons(p[0], u, sep);
      SplitPrefix(p[1..], t, sep);
      assert [p[0]] + (p[1..] + q[0]) == p + q[0];
    } else {
      var q := Split(t, sep);
      assert p + t == t;
      assert p + q[0] == q[0];
      assert q == [q[0]] + q[1..];
    }
  }

  /** A character other than the separator joins the first piece. */
  lemma SplitCons(c: char, u: string, sep: char)
    requires c != sep
    ensures Split([c] + u, sep) == [[c] + Split(u, sep)[0]] + Split(u, sep)[1..]
  {
    assert ([c] + u)[1..] == u;
  }

  /** Joining separator-free pieces and splitting again gives the same pieces. */
  lemma {:induction false} SplitJoin(pieces: seq<string>, sep: char)
    requires |pieces| >= 1
    requires forall i :: 0 <= i < |pieces| ==> sep !in pieces[i]
    ensures Split(Join(pieces, sep), sep) == pieces
    decreases |pieces|
  {
    if |pieces| == 1 {
      SplitPrefix(pieces[0], [], sep);
      assert pieces[0] + [] == pieces[0];
    } else {
      var rest := pieces[1..];
      SplitJoin(rest, sep);
      var u := Join(rest, sep);
      assert pieces[0] + [sep] + u == pieces[0] + ([sep] + u);
      SplitPrefix(pieces[0], [sep] + u, sep);
      assert ([sep] + u)[1..] == u;
      assert Split([sep] + u, sep) == [""] + rest;
      assert pieces[0] + "" == pieces[0];
      assert pieces == [pieces[0]] + rest;
    }
  }
}
