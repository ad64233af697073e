/** String helpers the request builder relies on: `str.lower()` restricted
    to ASCII, `", ".join(...)`, and a splitter that undoes the join. */
module Text {

  predicate IsUpper(c: char) {
    'A' <= c <= 'Z'
  }

  /** Lowercases one character; only the ASCII capitals change. */
  function LowerChar(c: char): (r: char)
    ensures !IsUpper(r)
    ensures IsUpper(c) ==> 'a' <= r <= 'z' && r as int - c as int == 'a' as int - 'A' as int
    ensures !IsUpper(c) ==> r == c
  {
    if IsUpper(c) then (c as int - 'A' as int + 'a' as int) as char else c
  }

  predicate IsLowerCase(s: string) {
    forall i :: 0 <= i < |s| ==> !IsUpper(s[i])
  }

  /** `s.lower()`: every character is lowercased in place. */
  function Lower(s: string): (r: string)
    ensures |r| == |s|
    ensures forall i :: 0 <= i < |s| ==> r[i] == LowerChar(s[i])
    ensures IsLowerCase(r)
  {
    if |s| == 0 then "" else [LowerChar(s[0])] + Lower(s[1..])
  }

  /** Lowercasing changes exactly the strings that hold a capital. */
  lemma LowerFixpoint(s: string)
    ensures Lower(s) == s <==> IsLowerCase(s)
  {
  }

  lemma LowerIdempotent(s: string)
    ensures Lower(Lower(s)) == Lower(s)
  {
  }

  /** `sep.join(xs)`: the elements in order, with `sep` between neighbours. */
  function Join(xs: seq<string>, sep: string): (r: string)
    ensures |xs| == 0 ==> r == ""
    ensures |xs| > 0 ==> xs[0] <= r
    ensures |xs| > 1 ==> xs[0] + sep <= r
  {
    if |xs| == 0 then ""
    else if |xs| == 1 then xs[0]
    else xs[0] + sep + Join(xs[1..], sep)
  }

  /** Splits a string at every ", ". The result always has at least one
      piece, and an empty string splits into one empty piece. */
  function Split(s: string): (r: seq<string>)
    ensures |r| >= 1
    decreases |s|
  {
    if |s| == 0 then [""]
    else if |s| >= 2 && s[0] == ',' && s[1] == ' ' then [""] + Split(s[2..])
    else
      var rest := Split(s[1..]);
      [[s[0]] + rest[0]] + rest[1..]
  }

  /** A comma-free prefix is glued onto the first piece of what follows. */
  lemma {:induction false} SplitPrefix(x: string, t: string)
    requires ',' !in x
    ensures Split(x + t) == [x + Split(t)[0]] + Split(t)[1..]
    decreases |x|
  {
    if |x| == 0 {
      assert x + t == t;
      assert x + Split(t)[0] == Split(t)[0];
    } else {
      assert ',' !in x[1..];
      SplitPrefix(x[1..], t);
      assert (x + t)[0] == x[0];
      assert (x + t)[1..] == x[1..] + t;
      assert [x[0]] + (x[1..] + Split(t)[0]) == x + Split(t)[0];
    }
  }

  /** Joining with ", " and splitting again gives back the elements,
      provided none of them contains a comma. */
  lemma {:induction false} SplitJoin(xs: seq<string>)
    requires |xs| > 0
    requires forall i :: 0 <= i < |xs| ==> ',' !in xs[i]
    ensures Split(Join(xs, ", ")) == xs
    decreases |xs|
  {
    if |xs| == 1 {
      SplitPrefix(xs[0], "");
      assert xs[0] + "" == xs[0];
    } else {
      var j := Join(xs[1..], ", ");
      assert Join(xs, ", ") == xs[0] + (", " + j);
      SplitPrefix(xs[0], ", " + j);
      assert (", " + j)[2..] == j;
      assert Split(", " + j) == [""] + Split(j);
      SplitJoin(xs[1..]);
      assert Split(", " + j)[0] == "" && Split(", " + j)[1..] == xs[1..];
      assert xs[0] + "" == xs[0];
      assert xs == [xs[0]] + xs[1..];
    }
  }

  /** Joining the pieces with ", " rebuilds the string: splitting loses
      nothing, so a string is determined by its pieces. */
  lemma {:induction false} JoinSplit(s: string)
    ensures Join(Split(s), ", ") == s
    decreases |s|
  {
    if |s| == 0 {
    } else if |s| >= 2 && s[0] == ',' && s[1] == ' ' {
      var rest := Split(s[2..]);
      JoinSplit(s[2..]);
      JoinCons("", rest, ", ");
      assert s == ", " + s[2..];
    } else {
      var rest := Split(s[1..]);
      JoinSplit(s[1..]);
      GlueFirst(s[0], rest, ", ");
      assert s == [s[0]] + s[1..];
    }
  }

  lemma JoinCons(x: string, xs: seq<string>, sep: string)
    requires |xs| > 0
    ensures Join([x] + xs, sep) == x + sep + Join(xs, sep)
  {
  }

  /** Gluing a character onto the first piece prefixes it to the join. */
  lemma GlueFirst(c: char, xs: seq<string>, sep: string)
    requires |xs| > 0
    ensures Join([[c] + xs[0]] + xs[1..], sep) == [c] + Join(xs, sep)
  {
  }
}
