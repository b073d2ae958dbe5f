/** The string helpers the documentation scripts use to build listings. */
module ScriptUtil {
  import opened Text

  /** `flip(f)` for a function of two arguments: the arguments reversed. */
  function Flip<A(!new), B(!new), C>(f: (A, B) --> C): (g: (B, A) --> C)
    ensures forall b, a :: f.requires(a, b) ==> g.requires(b, a) && g(b, a) == f(a, b)
  {
    (b, a) requires f.requires(a, b) => f(a, b)
  }

  /** `wrap(s, w)`: `s` between two copies of `w`. */
  function Wrap(s: string, w: string): (r: string)
    ensures |r| == |s| + 2 * |w|
    ensures StartsWith(r, w) && EndsWith(r, w) && r[|w|..|w| + |s|] == s
  {
    w + s + w
  }

  /** `bullet(s, indent, c)`: `indent` spaces, the bullet `c`, a space and `s`. */
  function Bullet(s: string, indent: int, c: string): (r: string)
    ensures var n := if indent > 0 then indent else 0;
            |r| == n + |c| + 1 + |s|
            && (forall i :: 0 <= i < n ==> r[i] == ' ')
            && r[n..n + |c|] == c && r[n + |c|] == ' ' && r[n + |c| + 1..] == s
  {
    var sp := Spaces(indent);
    assert (sp + c + " " + s)[..|sp|] == sp;
    sp + c + " " + s
  }

  /** `map(partial(bullet, __indent=indent), items)` */
  function Bullets(items: seq<string>, indent: int): (bs: seq<string>)
    ensures |bs| == |items|
    ensures forall i :: 0 <= i < |items| ==> bs[i] == Bullet(items[i], indent, "*")
  {
    seq(|items|, i requires 0 <= i < |items| => Bullet(items[i], indent, "*"))
  }

  /** `list_multi(items, indent)`: one bullet per line. */
  function ListMulti(items: seq<string>, indent: int): string {
    Join("\n", Bullets(items, indent))
  }

  /** `map(partial(flip(wrap), w), items)`: each item wrapped in `w`. */
  function Quoted(items: seq<string>, w: string): (qs: seq<string>)
    ensures |qs| == |items|
    ensures forall i :: 0 <= i < |items| ==> qs[i] == Wrap(items[i], w)
  {
    var wrapWith := Flip(Wrap);
    seq(|items|, i requires 0 <= i < |items| => wrapWith(w, items[i]))
  }

  /** `', '.join(xs[:-1])` and `' or '` before the last item: the two-or-more
      branch of `list_inline`. */
  function Conjunction(xs: seq<string>): string
    requires |xs| > 1
  {
    Join(" or ", [Join(", ", xs[..|xs| - 1]), xs[|xs| - 1]])
  }

  /** `list_inline(items, w, __quote=quote)`, with one item standing for
      itself (optionally wrapped) and no item giving the empty string. */
  function ListInline(items: seq<string>, w: string, quote: bool): (r: string)
    ensures |items| == 0 ==> r == ""
    ensures |items| == 1 ==> r == if quote then Wrap(items[0], w) else items[0]
  {
    var qs := if quote then Quoted(items, w) else items;
    if |qs| > 1 then Conjunction(qs) else if |qs| == 1 then qs[0] else ""
  }

  /** `list_single(items, indent)`: the inline listing as one bullet. */
  function ListSingle(items: seq<string>, indent: int): (r: string)
    ensures |items| == 0 ==> r == Spaces(indent) + "* "
    ensures |items| == 1 ==> r == Spaces(indent) + "* " + Wrap(items[0], "'")
  {
    Bullet(ListInline(items, "'", true), indent, "*")
  }

  /** With two or more items, the quoted listing is the quoted items but the
      last joined by `, `, then ` or ` and the last quoted item. */
  lemma ListInlineQuotedShape(items: seq<string>, w: string)
    requires |items| > 1
    ensures ListInline(items, w, true)
            == Join(", ", Quoted(items[..|items| - 1], w)) + " or " + Wrap(items[|items| - 1], w)
  {
    var qs := Quoted(items, w);
    ListInlineQuoted(items, w);
    ListInlineShape(qs, w);
    assert qs[..|qs| - 1] == Quoted(items[..|items| - 1], w);
  }

  /** With two or more items, the bullet holds that quoted listing. */
  lemma ListSingleShape(items: seq<string>, indent: int)
    requires |items| > 1
    ensures ListSingle(items, indent)
            == Spaces(indent) + "* " + Join(", ", Quoted(items[..|items| - 1], "'"))
               + " or " + Wrap(items[|items| - 1], "'")
  {
    var head, last := Join(", ", Quoted(items[..|items| - 1], "'")), Wrap(items[|items| - 1], "'");
    ListInlineQuotedShape(items, "'");
    var sp, l := Spaces(indent), ListInline(items, "'", true);
    assert sp + "*" + " " == sp + "* ";
    assert (sp + "* ") + (head + " or " + last) == sp + "* " + head + " or " + last;
    assert ListSingle(items, indent) == sp + "*" + " " + l;
  }

  // ---------------------------------------------------------------------
  // Lines of a listing

  /** `s.split('\n')` */
  function SplitLines(s: string): (r: seq<string>)
    ensures |r| > 0
  {
    if |s| == 0 then [""]
    else
      var prev := SplitLines(s[..|s| - 1]);
      var c := s[|s| - 1];
      if c == '\n' then prev + [""] else prev[..|prev| - 1] + [prev[|prev| - 1] + [c]]
  }

  lemma {:induction false} SplitNoNewline(s: string)
    requires NoNewline(s)
    ensures SplitLines(s) == [s]
  {
    if |s| > 0 {
      SplitNoNewline(s[..|s| - 1]);
      assert s[..|s| - 1] + [s[|s| - 1]] == s;
    }
  }

  lemma {:induction false} SplitAppend(a: string, b: string)
    requires NoNewline(b)
    ensures SplitLines(a + "\n" + b) == SplitLines(a) + [b]
  {
    var s := a + "\n" + b;
    if |b| == 0 {
      assert s[..|s| - 1] == a;
    } else {
      var b' := b[..|b| - 1];
      assert s[..|s| - 1] == a + "\n" + b';
      SplitAppend(a, b');
      assert b' + [b[|b| - 1]] == b;
    }
  }

  /** `sep.join` of a longer sequence adds the separator and the new last element. */
  lemma {:induction false} JoinAppend(sep: string, xs: seq<string>, x: string)
    requires |xs| > 0
    ensures Join(sep, xs + [x]) == Join(sep, xs) + sep + x
  {
    var ys := xs + [x];
    if |xs| > 1 {
      assert ys[1..] == xs[1..] + [x];
      JoinAppend(sep, xs[1..], x);
    } else {
      assert ys[1..] == [x];
    }
  }

  lemma BulletNoNewline(s: string, indent: int)
    requires NoNewline(s)
    ensures NoNewline(Bullet(s, indent, "*"))
  {
    var r := Bullet(s, indent, "*");
    var n := if indent > 0 then indent else 0;
    forall i | 0 <= i < |r|
      ensures r[i] != '\n'
    {
      if i > n + 1 {
        assert r[i] == r[n + 2..][i - n - 2];
      }
    }
  }

  /** Splitting a listing at its line breaks gives back the bullets, one
      per item: the listing has no trailing line break and each item is on
      a line of its own. */
  lemma {:induction false} ListMultiLines(items: seq<string>, indent: int)
    requires |items| > 0
    requires forall i :: 0 <= i < |items| ==> NoNewline(items[i])
    ensures SplitLines(ListMulti(items, indent)) == Bullets(items, indent)
  {
    var n := |items| - 1;
    BulletNoNewline(items[n], indent);
    if n == 0 {
      SplitNoNewline(Bullet(items[0], indent, "*"));
    } else {
      var init := items[..n];
      ListMultiLines(init, indent);
      assert Bullets(items, indent) == Bullets(init, indent) + [Bullet(items[n], indent, "*")];
      JoinAppend("\n", Bullets(init, indent), Bullet(items[n], indent, "*"));
      SplitAppend(ListMulti(init, indent), Bullet(items[n], indent, "*"));
    }
  }

  /** Quoting is wrapping each item first, then listing without quoting. */
  lemma ListInlineQuoted(items: seq<string>, w: string)
    ensures ListInline(items, w, true) == ListInline(Quoted(items, w), w, false)
  {
  }

  /** With two or more items, the listing is the items but the last joined
      by `, `, then ` or ` and the last item. */
  lemma {:induction false} ListInlineShape(items: seq<string>, w: string)
    requires |items| > 1
    ensures ListInline(items, w, false)
            == Join(", ", items[..|items| - 1]) + " or " + items[|items| - 1]
    ensures |items| == 2 ==> ListInline(items, w, false) == items[0] + " or " + items[1]
  {
    var xs := [Join(", ", items[..|items| - 1]), items[|items| - 1]];
    assert xs[1..] == [items[|items| - 1]];
    if |items| == 2 {
      assert items[..1] == [items[0]];
    }
  }

  /** Adding an item turns the previous ` or ` into `, `. */
  lemma ListInlineAppend(items: seq<string>, x: string, w: string)
    requires |items| > 1
    ensures ListInline(items + [x], w, false)
            == Join(", ", items) + " or " + x
  {
    var ys := items + [x];
    assert ys[..|ys| - 1] == items;
    ListInlineShape(ys, w);
  }

  // ---------------------------------------------------------------------
  // The documented examples

  lemma WrapExamples()
    ensures Wrap("text", "'") == "'text'"
    ensures Wrap("var", "%") == "%var%"
  {
  }

  lemma BulletExamples()
    ensures Bullet("item", 0, "*") == "* item"
    ensures Bullet("item", 4, "@") == "    @ item"
  {
  }

  lemma FlipExample()
    ensures Flip((x: real, y: real) requires y != 0.0 => x / y)(2.0, 3.0) == 1.5
  {
  }

  lemma ListMultiExamples()
    ensures ListMulti(["a", "b", "c"], 0) == "* a\n* b\n* c"
    ensures ListMulti(["a", "b", "c"], 4) == "    * a\n    * b\n    * c"
  {
    assert "* a" + "\n" + "* b" + "\n" + "* c" == "* a\n* b\n* c";
    assert "    * a" + "\n" + "    * b" + "\n" + "    * c" == "    * a\n    * b\n    * c";
    ListMultiThree("a", "b", "c", 0);
    assert Bullet("a", 0, "*") == "* a" && Bullet("b", 0, "*") == "* b" && Bullet("c", 0, "*") == "* c";
    ListMultiThree("a", "b", "c", 4);
    assert Spaces(4) == "    ";
    assert Bullet("a", 4, "*") == "    * a" && Bullet("b", 4, "*") == "    * b" && Bullet("c", 4, "*") == "    * c";
  }

  lemma ListMultiThree(a: string, b: string, c: string, indent: int)
    ensures ListMulti([a, b, c], indent)
            == Bullet(a, indent, "*") + "\n" + Bullet(b, indent, "*") + "\n" + Bullet(c, indent, "*")
  {
    var bs := Bullets([a, b, c], indent);
    assert bs[1..][1..] == [bs[2]];
    assert Join("\n", bs[1..]) == bs[1] + "\n" + bs[2];
  }

  lemma ListInlineExamples()
    ensures ListInline(["a", "b"], "'", true) == "'a' or 'b'"
    ensures ListInline(["a", "b", "c"], "'", true) == "'a', 'b' or 'c'"
    ensures ListInline(["a", "b", "c"], "`", true) == "`a`, `b` or `c`"
  {
    QuotedTwo("'");
    QuotedThree("'");
    QuotedThree("`");
  }

  lemma QuotedTwo(w: string)
    ensures ListInline(["a", "b"], w, true) == w + "a" + w + " or " + w + "b" + w
  {
    var qs := [w + "a" + w, w + "b" + w];
    assert Quoted(["a", "b"], w) == qs;
    ListInlineShape(qs, w);
  }

  lemma QuotedThree(w: string)
    ensures ListInline(["a", "b", "c"], w, true) == w + "a" + w + ", " + w + "b" + w + " or " + w + "c" + w
  {
    var qs := [w + "a" + w, w + "b" + w, w + "c" + w];
    assert Quoted(["a", "b", "c"], w) == qs;
    ListInlineUnquotedThree(qs[0], qs[1], qs[2]);
  }

  lemma ListInlineUnquotedThree(a: string, b: string, c: string)
    ensures ListInline([a, b, c], "'", false) == a + ", " + b + " or " + c
    ensures forall w :: ListInline([a, b, c], w, false) == ListInline([a, b, c], "'", false)
  {
    ListInlineShape([a, b, c], "'");
    assert [a, b, c][..2] == [a, b];
    assert [a, b][1..] == [b];
  }

  lemma ListInlineUnquotedExample()
    ensures ListInline(["a", "b", "c"], "'", false) == "a, b or c"
  {
    ListInlineUnquotedThree("a", "b", "c");
  }

  lemma ListSingleExamples()
    ensures ListSingle(["a", "b", "c"], 0) == "* 'a', 'b' or 'c'"
    ensures ListSingle(["a", "b", "c"], 4) == "    * 'a', 'b' or 'c'"
  {
    var w := "'a', 'b' or 'c'";
    assert "'" + "a" + "'" + ", " + "'" + "b" + "'" + " or " + "'" + "c" + "'" == w;
    assert "" + "*" + " " + w == "* 'a', 'b' or 'c'";
    assert "    " + "*" + " " + w == "    * 'a', 'b' or 'c'";
    QuotedThree("'");
    assert Spaces(0) == "" && Spaces(4) == "    ";
  }

  // ---------------------------------------------------------------------
  // The one-item branch as written

  /** A hexadecimal digit of Python's `repr` escapes. */
  function HexDigit(d: nat): char
    requires d < 16
  {
    if d < 10 then ('0' as int + d) as char else ('a' as int + d - 10) as char
  }

  /** How `repr` writes one character of a string quoted by `q`: a
      backslash, the quote and the control characters are escaped. */
  function Escape(c: char, q: char): string {
    var n := c as int;
    if c == '\\' then "\\\\"
    else if c == q then ['\\', c]
    else if c == '\n' then "\\n"
    else if c == '\r' then "\\r"
    else if c == '\t' then "\\t"
    else if n < 0x20 || 0x7F <= n <= 0xA0 then "\\x" + [HexDigit(n / 16), HexDigit(n % 16)]
    else [c]
  }

  function EscapeAll(s: string, q: char): string {
    if |s| == 0 then "" else EscapeAll(s[..|s| - 1], q) + Escape(s[|s| - 1], q)
  }

  /** Python's `repr` of a string: double quotes when it holds a single
      quote and no double quote, single quotes otherwise. */
  function PyRepr(s: string): (r: string)
    ensures |r| >= 2 && (r[0] == '"' <==> '\'' in s && '"' !in s)
  {
    var q := if '\'' in s && '"' !in s then '"' else '\'';
    [q] + EscapeAll(s, q) + [q]
  }

  /** `list_inline` as written: one item or none goes through
      `str(items)[1:-1]`, the `repr` of the list without its brackets. */
  function ListInlineAsWritten(items: seq<string>, w: string, quote: bool): string {
    var qs := if quote then Quoted(items, w) else items;
    if |qs| > 1 then Conjunction(qs)
    else Join(", ", seq(|qs|, i requires 0 <= i < |qs| => PyRepr(qs[i])))
  }

  /** The written and the intended listing agree except on one item. */
  lemma ListInlineAsWrittenAgrees(items: seq<string>, w: string, quote: bool)
    requires |items| != 1
    ensures ListInlineAsWritten(items, w, quote) == ListInline(items, w, quote)
  {
  }

  lemma PyReprExamples()
    ensures PyRepr("'a'") == "\"'a'\""
    ensures PyRepr("a") == "'a'"
  {
    assert "\"" + "'a'" + "\"" == "\"'a'\"";
    assert "'" + "a" + "'" == "'a'";
    EscapeAllPlain("'a'", '"');
    EscapeAllPlain("a", '\'');
    assert '\'' in "'a'" && '"' !in "'a'";
    assert '\'' !in "a";
  }

  /** A character `repr` writes as itself. */
  predicate Plain(c: char, q: char) {
    c != '\\' && c != q && 0x20 <= c as int && !(0x7F <= c as int <= 0xA0)
  }

  lemma {:induction false} EscapeAllPlain(s: string, q: char)
    requires forall i :: 0 <= i < |s| ==> Plain(s[i], q)
    ensures EscapeAll(s, q) == s
  {
    if |s| > 0 {
      EscapeAllPlain(s[..|s| - 1], q);
      assert s[..|s| - 1] + [s[|s| - 1]] == s;
    }
  }

  /** One item is listed with its `repr`: quoted, `'a'` becomes `"'a'"` and
      not the documented `'a'`; unquoted, `a` becomes `'a'`. */
  lemma ListInlineAsWrittenOneItem()
    ensures ListInlineAsWritten(["a"], "'", true) == "\"'a'\""
    ensures ListInlineAsWritten(["a"], "'", true) != "'a'"
    ensures ListInlineAsWritten(["a"], "'", false) == "'a'"
  {
    PyReprExamples();
    var q := Quoted(["a"], "'");
    assert Wrap("a", "'") == "'a'";
    assert q == ["'a'"];
    assert seq(1, i requires 0 <= i < 1 => PyRepr(q[i])) == [PyRepr("'a'")];
    assert seq(1, i requires 0 <= i < 1 => PyRepr(["a"][i])) == [PyRepr("a")];
  }

  /** As written, `list_single(['a'])` is the bullet `* "'a'"`, not `* 'a'`. */
  lemma ListSingleAsWrittenOneItem()
    ensures Bullet(ListInlineAsWritten(["a"], "'", true), 0, "*") == "* \"'a'\""
    ensures ListSingle(["a"], 0) == "* 'a'"
  {
    ListInlineAsWrittenOneItem();
    assert "" + "*" + " " + "\"'a'\"" == "* \"'a'\"";
    assert Spaces(0) + "* " + Wrap("a", "'") == "* 'a'";
  }

  /** The intended listing of one item is the item, wrapped when quoting. */
  lemma ListInlineOneItem()
    ensures ListInline(["a"], "'", true) == "'a'"
    ensures ListInline(["a"], "'", false) == "a"
  {
  }
}
