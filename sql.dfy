/**
 * Shared vocabulary of the predicate assembler: the values bound to
 * placeholders, the identifiers spliced into a SQL template, the count of
 * `?` placeholders in a template, and joining fragments with a separator.
 */
module Sql {

  /** Go's uint64. */
  newtype u64 = x: int | 0 <= x < 0x1_0000_0000_0000_0000

  /** A value bound to a placeholder. The builder never looks inside a value,
      except that the pattern operators wrap text in `%` wildcards. */
  datatype Value = Text(s: string) | Number(n: int) | Collection(items: seq<Value>)

  /** A column identifier. It is spliced into the template verbatim, so it must
      not contribute placeholders of its own. */
  type Column = s: string | '?' !in s witness ""

  /** The number of `?` placeholders in a template. */
  function Marks(s: string): nat
  {
    if s == [] then 0 else (if s[0] == '?' then 1 else 0) + Marks(s[1..])
  }

  /** A template has no placeholder exactly when it has no `?`. */
  lemma {:induction false} NoMarks(s: string)
    ensures Marks(s) == 0 <==> '?' !in s
  {
    if s != [] {
      NoMarks(s[1..]);
      assert s == [s[0]] + s[1..];
    }
  }

  lemma {:induction false} MarksConcat(a: string, b: string)
    ensures Marks(a + b) == Marks(a) + Marks(b)
  {
    if a == [] {
      assert a + b == b;
    } else {
      assert (a + b)[0] == a[0];
      assert (a + b)[1..] == a[1..] + b;
      MarksConcat(a[1..], b);
    }
  }

  /** Placeholders of the concatenation `pre + s + post` where the
      surrounding text has none: exactly those of `s`. */
  lemma MarksWrapped(pre: string, s: string, post: string)
    requires '?' !in pre && '?' !in post
    ensures Marks(pre + s + post) == Marks(s)
  {
    NoMarks(pre);
    NoMarks(post);
    MarksConcat(pre, s);
    MarksConcat(pre + s, post);
  }

  /** A single placeholder between placeholder-free text. */
  lemma OnePlaceholder(pre: string, post: string)
    requires '?' !in pre && '?' !in post
    ensures Marks(pre + "?" + post) == 1
  {
    MarksWrapped(pre, "?", post);
    assert "?"[1..] == [];
  }

  /** The number of placeholders across a sequence of fragments. */
  function MarksAll(xs: seq<string>): nat
  {
    if xs == [] then 0 else MarksAll(xs[..|xs| - 1]) + Marks(xs[|xs| - 1])
  }

  lemma MarksAllSnoc(xs: seq<string>, x: string)
    ensures MarksAll(xs + [x]) == MarksAll(xs) + Marks(x)
  {
    assert (xs + [x])[..|xs|] == xs;
  }

  /** Go's strings.Join: the elements separated by `sep`, "" for no elements. */
  function Join(xs: seq<string>, sep: string): string
  {
    if xs == [] then ""
    else if |xs| == 1 then xs[0]
    else Join(xs[..|xs| - 1], sep) + sep + xs[|xs| - 1]
  }

  /** Appending an element to a non-empty list extends the joined string by the
      separator and that element; appended to the empty list, the element is
      the whole joined string. */
  lemma JoinSnoc(xs: seq<string>, x: string, sep: string)
    ensures Join(xs + [x], sep) == if xs == [] then x else Join(xs, sep) + sep + x
  {
    assert (xs + [x])[..|xs|] == xs;
  }

  /** Joining two non-empty lists is joining their joins. */
  lemma {:induction false} JoinConcat(xs: seq<string>, ys: seq<string>, sep: string)
    requires xs != [] && ys != []
    ensures Join(xs + ys, sep) == Join(xs, sep) + sep + Join(ys, sep)
  {
    var n := |ys|;
    if n == 1 {
      assert ys == [ys[0]];
      JoinSnoc(xs, ys[0], sep);
    } else {
      var init := ys[..n - 1];
      assert xs + ys == (xs + init) + [ys[n - 1]];
      assert ys == init + [ys[n - 1]];
      JoinSnoc(xs + init, ys[n - 1], sep);
      JoinSnoc(init, ys[n - 1], sep);
      JoinConcat(xs, init, sep);
    }
  }

  /** A separator without placeholders contributes none: the joined string has
      exactly the placeholders of its elements. */
  lemma {:induction false} JoinMarks(xs: seq<string>, sep: string)
    requires '?' !in sep
    ensures Marks(Join(xs, sep)) == MarksAll(xs)
  {
    NoMarks(sep);
    if |xs| == 1 {
      assert xs[..0] == [];
    } else if |xs| > 1 {
      var init := xs[..|xs| - 1];
      JoinMarks(init, sep);
      MarksConcat(Join(init, sep), sep);
      MarksConcat(Join(init, sep) + sep, xs[|xs| - 1]);
    }
  }
}
