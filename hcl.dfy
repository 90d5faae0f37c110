/**
  The HCL2 writer of the Terraform target: string quoting, indentation, the aligned map
  text written into a byte buffer, the raw token lists of literal lists and old-style maps,
  and `writeValue`, which dispatches on the kind of a value to set attributes and append
  nested blocks of an `hclwrite` body. Every map and object is written in sorted key order,
  so the output does not depend on Go's map iteration order.
*/
module Hcl {
  import opened Wrappers
  import opened Sorting

  /**
    `terraformWriter.Literal`: HCL text written out verbatim, such as a reference
    `aws_subnet.a.id`, a function call, or an already quoted string.
  */
  datatype Literal = Literal(text: string)

  // ------------------------------------------------------------------ quoting

  /** The characters `quote` escapes with a backslash. */
  predicate NeedsEscape(c: char)
  {
    c == '\\' || c == '"'
  }

  /** How many characters of `s` need escaping. */
  function EscapedCount(s: string): nat
  {
    if s == [] then 0 else (if NeedsEscape(s[0]) then 1 else 0) + EscapedCount(s[1..])
  }

  /** What `quote` writes for one character. */
  function EscapeChar(c: char): string
  {
    if NeedsEscape(c) then ['\\', c] else [c]
  }

  /** The text between the quotes of `quote(s)`. */
  function Escape(s: string): (r: string)
    ensures |r| == |s| + EscapedCount(s)
  {
    if s == [] then [] else EscapeChar(s[0]) + Escape(s[1..])
  }

  /**
    `quote(s)`: `s` between double quotes, each backslash and double quote preceded by
    an inserted backslash, every other character copied in order.
  */
  function Quote(s: string): (r: string)
    ensures |r| == |s| + 2 + EscapedCount(s)
    ensures r[0] == '"' && r[|r| - 1] == '"'
  {
    ['"'] + Escape(s) + ['"']
  }

  /**
    Reads back the text between the quotes: a bare `"` ends the string early and a
    backslash must be followed by `\` or `"`, so either is an error here.
  */
  function Unescape(t: string): Option<string>
  {
    if t == [] then Some([])
    else if t[0] == '"' then None
    else if t[0] == '\\' then
      if |t| >= 2 && NeedsEscape(t[1]) then
        match Unescape(t[2..])
        case None => None
        case Some(rest) => Some([t[1]] + rest)
      else None
    else
      match Unescape(t[1..])
      case None => None
      case Some(rest) => Some([t[0]] + rest)
  }

  /** Reads a quoted string back. */
  function Unquote(q: string): Option<string>
  {
    if |q| >= 2 && q[0] == '"' && q[|q| - 1] == '"' then Unescape(q[1..|q| - 1]) else None
  }

  lemma {:induction false} UnescapeEscape(s: string)
    ensures Unescape(Escape(s)) == Some(s)
  {
    if s != [] {
      UnescapeEscape(s[1..]);
      var t := Escape(s);
      assert s == [s[0]] + s[1..];
      if NeedsEscape(s[0]) {
        assert t[0] == '\\' && t[1] == s[0];
        assert t[2..] == Escape(s[1..]);
      } else {
        assert t[0] == s[0];
        assert t[1..] == Escape(s[1..]);
      }
    }
  }

  /** Reading back what `quote` wrote gives the original string: quoting loses nothing. */
  lemma QuoteRoundTrip(s: string)
    ensures Unquote(Quote(s)) == Some(s)
  {
    UnescapeEscape(s);
    var q := Quote(s);
    assert q[1..|q| - 1] == Escape(s);
  }

  /** Distinct keys stay distinct once quoted. */
  lemma QuoteInjective(a: string, b: string)
    requires Quote(a) == Quote(b)
    ensures a == b
  {
    QuoteRoundTrip(a);
    QuoteRoundTrip(b);
  }

  // ------------------------------------------------------------------ bytes and indentation

  /** Bytes of the UTF-8 encoding of one character. */
  function Utf8Len(c: char): nat
  {
    if c as int < 0x80 then 1
    else if c as int < 0x800 then 2
    else if c as int < 0x1_0000 then 3
    else 4
  }

  /** Go's `len(s)`: the length of the UTF-8 encoding of `s`, at least one byte per character. */
  function ByteLen(s: string): (n: nat)
    ensures n >= |s|
  {
    if s == [] then 0 else Utf8Len(s[0]) + ByteLen(s[1..])
  }

  lemma {:induction false} ByteLenAppend(a: string, b: string)
    ensures ByteLen(a + b) == ByteLen(a) + ByteLen(b)
  {
    if a != [] {
      assert (a + b)[0] == a[0];
      assert (a + b)[1..] == a[1..] + b;
      ByteLenAppend(a[1..], b);
    } else {
      assert a + b == b;
    }
  }

  lemma AppendAssoc<T>(a: seq<T>, b: seq<T>, c: seq<T>)
    ensures (a + b) + c == a + (b + c)
  {
  }

  /** `n` spaces, and none when `n <= 0`. */
  function Spaces(n: int): (r: string)
    ensures |r| == if n > 0 then n else 0
    ensures forall i :: 0 <= i < |r| ==> r[i] == ' '
    decreases n
  {
    if n <= 0 then [] else Spaces(n - 1) + " "
  }

  lemma {:induction false} SpacesByteLen(n: int)
    ensures ByteLen(Spaces(n)) == if n > 0 then n else 0
    decreases n
  {
    if n > 0 {
      SpacesByteLen(n - 1);
      ByteLenAppend(Spaces(n - 1), " ");
    }
  }

  /** Go's `bytes.Buffer`, as the text written to it so far. */
  class Buffer {
    var text: string

    constructor ()
      ensures text == []
    {
      text := [];
    }

    method WriteString(s: string)
      modifies this
      ensures text == old(text) + s
    {
      text := text + s;
    }
  }

  /** `writeIndent`: appends `indent` spaces, nothing when `indent <= 0`. */
  method WriteIndent(buf: Buffer, indent: int)
    modifies buf
    ensures buf.text == old(buf.text) + Spaces(indent)
  {
    var i := 0;
    while i < indent
      invariant indent > 0 ==> 0 <= i <= indent
      invariant indent <= 0 ==> i == 0
      invariant buf.text == old(buf.text) + Spaces(i)
    {
      buf.WriteString(" ");
      i := i + 1;
    }
  }

  // ------------------------------------------------------------------ writeMap

  /** Go's `for k := range m { keys = append(keys, k) }`: every key once, in no particular order. */
  method MapKeys(ks: set<string>) returns (keys: seq<string>)
    ensures multiset(keys) == multiset(ks)
  {
    keys := [];
    var rest := ks;
    while rest != {}
      invariant rest <= ks
      invariant multiset(keys) + multiset(rest) == multiset(ks)
      decreases rest
    {
      var k :| k in rest;
      SetMultisetSplit(rest, k);
      keys := keys + [k];
      rest := rest - {k};
    }
  }

  /**
    `sort.Strings` on the keys of a map gathered in iteration order: whatever that order
    was, the result is `SortedKeys` of the map's key set.
  */
  method SortKeys(gathered: seq<string>, ghost ks: set<string>) returns (keys: seq<string>)
    requires multiset(gathered) == multiset(ks)
    ensures keys == SortedKeys(ks)
  {
    keys := SortStrings(gathered);
    SortedGatheredKeys(gathered, ks);
  }

  /** The longest quoted key, in bytes; 0 for no keys. */
  ghost function MaxQuotedLen(ks: set<string>): (m: nat)
    ensures forall k :: k in ks ==> ByteLen(Quote(k)) <= m
    ensures ks != {} ==> exists k :: k in ks && ByteLen(Quote(k)) == m
    ensures ks == {} ==> m == 0
    decreases ks
  {
    if ks == {} then 0
    else
      var k :| k in ks;
      var rest := MaxQuotedLen(ks - {k});
      if ByteLen(Quote(k)) > rest then ByteLen(Quote(k)) else rest
  }

  /** The part of a map line before ` = `: the quoted key, indented and padded to `width` bytes. */
  function KeyColumn(indent: int, width: int, k: string): string
  {
    Spaces(indent + 2) + Quote(k) + Spaces(width - ByteLen(Quote(k)))
  }

  /** One line of `writeMap`. */
  function MapLine(indent: int, width: int, k: string, v: Literal): string
  {
    KeyColumn(indent, width, k) + " = " + v.text + "\n"
  }

  /** The lines of `writeMap` for the keys `keys`, in that order (a key not in the map has no line). */
  function MapLines(indent: int, width: int, keys: seq<string>, values: map<string, Literal>): string
  {
    if keys == [] then []
    else
      var k := keys[|keys| - 1];
      MapLines(indent, width, keys[..|keys| - 1], values)
      + (if k in values then MapLine(indent, width, k, values[k]) else [])
  }

  /**
    The text `writeMap(buf, indent, key, values)` appends: nothing for an empty map;
    otherwise an opening line, one line per key in increasing key order, and a closing
    brace at the opening line's indentation.
  */
  ghost function MapText(indent: int, key: string, values: map<string, Literal>): string
  {
    if |values| == 0 then []
    else
      Spaces(indent) + key + " = {\n"
      + MapLines(indent, MaxQuotedLen(values.Keys), SortedKeys(values.Keys), values)
      + Spaces(indent) + "}\n"
  }

  /**
    Every ` = ` of a map lines up: whatever the key, the text before it is
    `indent + 2 + maxKeyLen` bytes long.
  */
  lemma KeyColumnAligned(indent: int, values: map<string, Literal>, k: string)
    requires indent + 2 >= 0
    requires k in values
    ensures ByteLen(KeyColumn(indent, MaxQuotedLen(values.Keys), k))
            == indent + 2 + MaxQuotedLen(values.Keys)
  {
    var width := MaxQuotedLen(values.Keys);
    var q := Quote(k);
    ByteLenAppend(Spaces(indent + 2), q);
    ByteLenAppend(Spaces(indent + 2) + q, Spaces(width - ByteLen(q)));
    SpacesByteLen(indent + 2);
    SpacesByteLen(width - ByteLen(q));
  }

  /**
    The first loop of `writeMap`: the keys in map iteration order, and the longest quoted
    key in bytes (Go's `len` of a string).
  */
  method KeysAndWidth(values: map<string, Literal>) returns (keys: seq<string>, maxKeyLen: nat)
    ensures multiset(keys) == multiset(values.Keys)
    ensures maxKeyLen == MaxQuotedLen(values.Keys)
  {
    keys := [];
    maxKeyLen := 0;
    var rest := values.Keys;
    while rest != {}
      invariant rest <= values.Keys
      invariant multiset(keys) + multiset(rest) == multiset(values.Keys)
      invariant forall k :: k in values.Keys && k !in rest ==> ByteLen(Quote(k)) <= maxKeyLen
      invariant maxKeyLen == 0 || exists k :: k in values.Keys && k !in rest && ByteLen(Quote(k)) == maxKeyLen
      decreases rest
    {
      var k :| k in rest;
      SetMultisetSplit(rest, k);
      var kLen := ByteLen(Quote(k));
      if kLen > maxKeyLen {
        maxKeyLen := kLen;
      }
      keys := keys + [k];
      rest := rest - {k};
    }
    ghost var m := MaxQuotedLen(values.Keys);
    if values.Keys != {} {
      ghost var k1 :| k1 in values.Keys && ByteLen(Quote(k1)) == m;
      assert m <= maxKeyLen;
    }
    if maxKeyLen != 0 {
      ghost var k2 :| k2 in values.Keys && ByteLen(Quote(k2)) == maxKeyLen;
      assert maxKeyLen <= m;
    }
  }

  /** One pass of the second loop of `writeMap`. */
  method WriteMapLine(buf: Buffer, indent: int, width: int, k: string, v: Literal)
    modifies buf
    ensures buf.text == old(buf.text) + MapLine(indent, width, k, v)
  {
    ghost var before := buf.text;
    WriteIndent(buf, indent + 2);
    var quoted := Quote(k);
    buf.WriteString(quoted);
    AppendAssoc(before, Spaces(indent + 2), quoted);
    WriteIndent(buf, width - ByteLen(quoted));
    ghost var column := KeyColumn(indent, width, k);
    AppendAssoc(before, Spaces(indent + 2) + quoted, Spaces(width - ByteLen(quoted)));
    assert buf.text == before + column;
    buf.WriteString(" = ");
    AppendAssoc(before, column, " = ");
    buf.WriteString(v.text);
    AppendAssoc(before, column + " = ", v.text);
    buf.WriteString("\n");
    AppendAssoc(before, column + " = " + v.text, "\n");
  }

  /** The second loop of `writeMap`: one line per key, in the order of `keys`. */
  method WriteMapLines(buf: Buffer, indent: int, width: int, keys: seq<string>, values: map<string, Literal>)
    requires forall k :: k in keys ==> k in values
    modifies buf
    ensures buf.text == old(buf.text) + MapLines(indent, width, keys, values)
  {
    for i := 0 to |keys|
      invariant buf.text == old(buf.text) + MapLines(indent, width, keys[..i], values)
    {
      ghost var done := MapLines(indent, width, keys[..i], values);
      WriteMapLine(buf, indent, width, keys[i], values[keys[i]]);
      MapLinesStep(indent, width, keys, i, values);
      AppendAssoc(old(buf.text), done, MapLine(indent, width, keys[i], values[keys[i]]));
    }
    assert keys[..|keys|] == keys;
  }

  lemma MapLinesStep(indent: int, width: int, keys: seq<string>, i: nat, values: map<string, Literal>)
    requires i < |keys| && keys[i] in values
    ensures MapLines(indent, width, keys[..i + 1], values)
            == MapLines(indent, width, keys[..i], values) + MapLine(indent, width, keys[i], values[keys[i]])
  {
    assert keys[..i + 1][..i] == keys[..i];
  }

  /** `writeMap`: appends `MapText(indent, key, values)` to the buffer. */
  method WriteMap(buf: Buffer, indent: int, key: string, values: map<string, Literal>)
    modifies buf
    ensures buf.text == old(buf.text) + MapText(indent, key, values)
  {
    if |values| == 0 {
      return;
    }
    ghost var before := buf.text;
    WriteIndent(buf, indent);
    buf.WriteString(key);
    AppendAssoc(before, Spaces(indent), key);
    buf.WriteString(" = {\n");
    AppendAssoc(before, Spaces(indent) + key, " = {\n");
    ghost var text := Spaces(indent) + key + " = {\n";
    var gathered, maxKeyLen := KeysAndWidth(values);
    var keys := SortKeys(gathered, values.Keys);
    WriteMapLines(buf, indent, maxKeyLen, keys, values);
    ghost var lines := MapLines(indent, maxKeyLen, keys, values);
    AppendAssoc(before, text, lines);
    text := text + lines;
    WriteIndent(buf, indent);
    AppendAssoc(before, text, Spaces(indent));
    text := text + Spaces(indent);
    buf.WriteString("}\n");
    AppendAssoc(before, text, "}\n");
  }

  // ------------------------------------------------------------------ tokens

  /** The `hclsyntax` token types the writer emits. */
  datatype TokenType =
    | OBrack | CBrack | Comma | Ident | OBrace | CBrace | Newline | OQuote | CQuote | QuotedLit | Equal
      /** Written by `hclwrite` itself for a value set with `SetAttributeValue`. */
    | Rendered

  /** An `hclwrite.Token`: its type, its bytes and the spaces written before it. */
  datatype Token = Token(kind: TokenType, bytes: string, spacesBefore: nat)

  function IdentToken(l: Literal): Token
  {
    Token(Ident, l.text, 0)
  }

  const CommaToken := Token(Comma, ",", 0)

  /** The elements of a literal list: the literals in order, a comma between each two. */
  function ListElements(lits: seq<Literal>): (r: seq<Token>)
    ensures |r| == if lits == [] then 0 else 2 * |lits| - 1
    ensures forall i :: 0 <= i < |r| ==> r[i] == if i % 2 == 0 then IdentToken(lits[i / 2]) else CommaToken
  {
    if lits == [] then []
    else if |lits| == 1 then [IdentToken(lits[0])]
    else [IdentToken(lits[0]), CommaToken] + ListElements(lits[1..])
  }

  /**
    `literalListTokens`: `[`, then the literals as raw identifiers at the odd positions with
    a comma at each even position between them, then `]`; the empty list gives `[]`.
  */
  function LiteralListTokens(lits: seq<Literal>): (r: seq<Token>)
    ensures |r| == if lits == [] then 2 else 2 * |lits| + 1
    ensures r[0] == Token(OBrack, "[", 1) && r[|r| - 1] == Token(CBrack, "]", 0)
    ensures forall i :: 0 < i < |r| - 1 ==> r[i] == if i % 2 == 1 then IdentToken(lits[i / 2]) else CommaToken
  {
    var elems := ListElements(lits);
    var r := [Token(OBrack, "[", 1)] + elems + [Token(CBrack, "]", 0)];
    assert forall i :: 0 < i < |r| - 1 ==> r[i] == elems[i - 1];
    r
  }

  /** How many tokens of `ts` have type `kind`. */
  function CountKind(ts: seq<Token>, kind: TokenType): nat
  {
    if ts == [] then 0 else (if ts[0].kind == kind then 1 else 0) + CountKind(ts[1..], kind)
  }

  /** A literal list of n elements holds exactly n identifiers and n - 1 commas. */
  lemma {:induction false} ListElementsCounts(lits: seq<Literal>)
    requires lits != []
    ensures CountKind(ListElements(lits), Comma) == |lits| - 1
    ensures CountKind(ListElements(lits), Ident) == |lits|
  {
    var r := ListElements(lits);
    if |lits| > 1 {
      ListElementsCounts(lits[1..]);
      assert r[1..][1..] == ListElements(lits[1..]);
    } else {
      assert r[1..] == [];
    }
  }

  // ------------------------------------------------------------------ the hclwrite body

  /** An entry of an `hclwrite.Body`: an attribute with its expression tokens, or a nested block. */
  datatype Item =
    | Attribute(name: string, tokens: seq<Token>)
    | Block(name: string, body: seq<Item>)

  function ItemName(it: Item): string
  {
    it.name
  }

  /**
    `Body.SetAttributeRaw` (and `SetAttributeValue`): replaces the tokens of the first
    attribute called `name`, or appends a new attribute when there is none.
  */
  function SetAttribute(items: seq<Item>, name: string, tokens: seq<Token>): (r: seq<Item>)
  {
    if items == [] then [Attribute(name, tokens)]
    else if items[0].Attribute? && items[0].name == name then [Attribute(name, tokens)] + items[1..]
    else [items[0]] + SetAttribute(items[1..], name, tokens)
  }

  /** The tokens of the first attribute called `name`. */
  function GetAttribute(items: seq<Item>, name: string): Option<seq<Token>>
  {
    if items == [] then None
    else if items[0].Attribute? && items[0].name == name then Some(items[0].tokens)
    else GetAttribute(items[1..], name)
  }

  /** After setting, the attribute holds the new tokens and every other attribute is unchanged. */
  lemma {:induction false} SetAttributeGet(items: seq<Item>, name: string, tokens: seq<Token>, other: string)
    ensures GetAttribute(SetAttribute(items, name, tokens), name) == Some(tokens)
    ensures other != name ==> GetAttribute(SetAttribute(items, name, tokens), other) == GetAttribute(items, other)
  {
    if items != [] && !(items[0].Attribute? && items[0].name == name) {
      SetAttributeGet(items[1..], name, tokens, other);
      assert SetAttribute(items, name, tokens)[1..] == SetAttribute(items[1..], name, tokens);
    }
  }

  /** Setting an attribute whose name nothing in the body carries appends it at the end. */
  lemma {:induction false} SetAttributeAppends(items: seq<Item>, name: string, tokens: seq<Token>)
    requires forall i :: 0 <= i < |items| ==> items[i].name != name
    ensures SetAttribute(items, name, tokens) == items + [Attribute(name, tokens)]
  {
    if items != [] {
      SetAttributeAppends(items[1..], name, tokens);
      assert items == [items[0]] + items[1..];
    }
  }

  /** `hclwrite.Body`, as the sequence of its attributes and nested blocks. */
  class Body {
    var items: seq<Item>

    constructor ()
      ensures items == []
    {
      items := [];
    }

    method SetAttributeRaw(name: string, tokens: seq<Token>)
      modifies this
      ensures items == SetAttribute(old(items), name, tokens)
    {
      items := SetAttribute(items, name, tokens);
    }

    /** `AppendNewBlock(blockType, nil)` followed by writing `inner` into the new block's body. */
    method AppendBlock(blockType: string, inner: seq<Item>)
      modifies this
      ensures items == old(items) + [Block(blockType, inner)]
    {
      items := items + [Block(blockType, inner)];
    }
  }

  // ------------------------------------------------------------------ values

  /** A value of a map written by `oldWriteMap`. */
  datatype MapEntry =
    | EntryLiteral(lit: Literal)
    | EntryLiterals(lits: seq<Literal>)
      /** A string, written between quote tokens. */
    | EntryString(s: string)

  /** An object value: its attributes by name. */
  datatype Object = Object(fields: map<string, Value>)

  /**
    The kinds of value `writeValue` tells apart. A cty list is homogeneous, so a list is a
    list of literals, of objects or of other (primitive) values.
  */
  datatype Value =
    | Null
    | LiteralValue(lit: Literal)
    | LiteralList(lits: seq<Literal>)
    | ObjectList(objs: seq<Object>)
      /** A list of primitives, with what `hclwrite` renders for each element. */
    | ScalarList(renderedElements: seq<string>)
    | ObjectValue(obj: Object)
    | MapValue(entries: map<string, MapEntry>)
      /** A primitive value, with what `hclwrite` renders for it. */
    | Scalar(rendered: string)

  function RenderedToken(text: string): Token
  {
    Token(Rendered, text, 1)
  }

  /** What `hclwrite` renders for the elements of a list of primitives, in order. */
  function RenderedTokens(rs: seq<string>): (r: seq<Token>)
    ensures |r| == |rs|
  {
    if rs == [] then [] else [RenderedToken(rs[0])] + RenderedTokens(rs[1..])
  }

  /** The value part of one line of `oldWriteMap`: raw, as a bracket list, or quoted. */
  function EntryValueTokens(v: MapEntry): seq<Token>
  {
    match v
    case EntryLiteral(l) => [IdentToken(l)]
    case EntryLiterals(ls) => LiteralListTokens(ls)
    case EntryString(s) => [Token(OQuote, "\"", 1), Token(QuotedLit, s, 0), Token(OQuote, "\"", 1)]
  }

  /** One line of `oldWriteMap`: the key between quotes, `=`, the value and a newline. */
  function EntryTokens(k: string, v: MapEntry): seq<Token>
  {
    [Token(OQuote, "\"", 1), Token(QuotedLit, k, 0), Token(CQuote, "\"", 1), Token(Equal, "=", 1)]
    + EntryValueTokens(v) + [Token(Newline, "\n", 0)]
  }

  /** The lines of `oldWriteMap` for the keys `keys`, in that order (a key not in the map has no line). */
  function EntriesTokens(keys: seq<string>, values: map<string, MapEntry>): seq<Token>
  {
    if keys == [] then []
    else
      var k := keys[|keys| - 1];
      EntriesTokens(keys[..|keys| - 1], values) + (if k in values then EntryTokens(k, values[k]) else [])
  }

  /** The lines of a key sequence are the lines of its parts, one after the other. */
  lemma {:induction false} EntriesTokensAppend(a: seq<string>, b: seq<string>, values: map<string, MapEntry>)
    ensures EntriesTokens(a + b, values) == EntriesTokens(a, values) + EntriesTokens(b, values)
    decreases |b|
  {
    if b != [] {
      assert (a + b)[..|a + b| - 1] == a + b[..|b| - 1];
      assert (a + b)[|a + b| - 1] == b[|b| - 1];
      EntriesTokensAppend(a, b[..|b| - 1], values);
    } else {
      assert a + b == a;
    }
  }

  /** The tokens `oldWriteMap` sets for a non-empty map: a brace block with one line per key, keys sorted. */
  ghost function MapTokens(values: map<string, MapEntry>): seq<Token>
  {
    [Token(OBrace, "{", 1), Token(Newline, "\n", 0)]
    + EntriesTokens(SortedKeys(values.Keys), values)
    + [Token(CBrace, "}", 0)]
  }

  /** The lines of a key sequence split around its `i`-th key. */
  lemma EntriesTokensAt(keys: seq<string>, values: map<string, MapEntry>, i: nat)
    requires i < |keys| && keys[i] in values
    ensures EntriesTokens(keys, values)
            == EntriesTokens(keys[..i], values) + EntryTokens(keys[i], values[keys[i]]) + EntriesTokens(keys[i + 1..], values)
  {
    assert keys == keys[..i] + [keys[i]] + keys[i + 1..];
    EntriesTokensAppend(keys[..i] + [keys[i]], keys[i + 1..], values);
    EntriesTokensAppend(keys[..i], [keys[i]], values);
    assert [keys[i]][..0] == [];
  }

  /**
    The line of every key sits where the sorted order puts it: after the lines of all
    smaller keys and before those of all greater ones.
  */
  lemma MapTokensLine(values: map<string, MapEntry>, i: nat)
    requires i < |SortedKeys(values.Keys)|
    ensures var keys := SortedKeys(values.Keys);
            MapTokens(values)
            == [Token(OBrace, "{", 1), Token(Newline, "\n", 0)]
               + (EntriesTokens(keys[..i], values)
                  + EntryTokens(keys[i], values[keys[i]])
                  + EntriesTokens(keys[i + 1..], values))
               + [Token(CBrace, "}", 0)]
  {
    var keys := SortedKeys(values.Keys);
    assert keys[i] in keys;
    EntriesTokensAt(keys, values, i);
  }

  /** Go's `sort.Strings` on the keys `b`, `a`. */
  lemma SortedKeysOfTwo()
    ensures SortedKeys({"a", "b"}) == ["a", "b"]
  {
    var ks := SortedKeys({"a", "b"});
    assert Less("a", "b");
    StrictlySortedIsSorted(ks);
    StrictlySortedIsSorted(["a", "b"]);
    assert multiset(["a", "b"]) == multiset({"a", "b"});
    SortedPermutationUnique(ks, ["a", "b"]);
  }

  /** A map of a string and a literal, built in the order `b`, `a`. */
  const ExampleMap := map["b" := EntryString("x"), "a" := EntryLiteral(Literal("aws_vpc.main.id"))]

  /** The two lines of the example map: the literal written raw, the string between quote tokens. */
  lemma ExampleEntries()
    ensures EntriesTokens(["a", "b"], ExampleMap)
            == [Token(OQuote, "\"", 1), Token(QuotedLit, "a", 0), Token(CQuote, "\"", 1), Token(Equal, "=", 1),
                Token(Ident, "aws_vpc.main.id", 0), Token(Newline, "\n", 0),
                Token(OQuote, "\"", 1), Token(QuotedLit, "b", 0), Token(CQuote, "\"", 1), Token(Equal, "=", 1),
                Token(OQuote, "\"", 1), Token(QuotedLit, "x", 0), Token(OQuote, "\"", 1), Token(Newline, "\n", 0)]
  {
    var ab: seq<string> := ["a", "b"];
    assert ab[..1] == ["a"] && ab[..1][..0] == [];
    assert EntriesTokens(ab, ExampleMap) == EntryTokens("a", ExampleMap["a"]) + EntryTokens("b", ExampleMap["b"]);
  }

  /**
    The map is written with `a` first, though built with `b` first, between an opening and
    a closing brace; `ExampleEntries` spells out its two lines.
  */
  lemma OldWriteMapExample()
    ensures MapTokens(ExampleMap)
            == [Token(OBrace, "{", 1), Token(Newline, "\n", 0)] + EntriesTokens(["a", "b"], ExampleMap)
               + [Token(CBrace, "}", 0)]
  {
    ExampleKeys();
  }

  lemma ExampleKeys()
    ensures SortedKeys(ExampleMap.Keys) == ["a", "b"]
  {
    assert ExampleMap.Keys == {"a", "b"};
    SortedKeysOfTwo();
  }

  /** The loop of `oldWriteMap`: one line of tokens per key, in the order of `keys`. */
  method WriteEntries(keys: seq<string>, values: map<string, MapEntry>) returns (tokens: seq<Token>)
    requires forall k :: k in keys ==> k in values
    ensures tokens == EntriesTokens(keys, values)
  {
    tokens := [];
    for i := 0 to |keys|
      invariant tokens == EntriesTokens(keys[..i], values)
    {
      tokens := tokens + EntryTokens(keys[i], values[keys[i]]);
      assert keys[..i + 1][..i] == keys[..i];
    }
    assert keys[..|keys|] == keys;
  }

  /** `oldWriteMap`: sets the attribute to `MapTokens(values)`; an empty map writes nothing. */
  method OldWriteMap(body: Body, key: string, values: map<string, MapEntry>)
    modifies body
    ensures body.items == if |values| == 0 then old(body.items) else SetAttribute(old(body.items), key, MapTokens(values))
  {
    if |values| == 0 {
      return;
    }
    var open := [Token(OBrace, "{", 1), Token(Newline, "\n", 0)];
    var gathered := MapKeys(values.Keys);
    var keys := SortKeys(gathered, values.Keys);
    var entries := WriteEntries(keys, values);
    body.SetAttributeRaw(key, open + entries + [Token(CBrace, "}", 0)]);
  }

  // ------------------------------------------------------------------ writeValue

  /**
    What `writeValue(body, key, v)` does to a body holding `items`: nothing for a null value
    or an empty list; a raw attribute for a literal or a list of literals; one nested block
    per object; the old-style map attribute for a map; and `hclwrite`'s own rendering for
    everything else.
  */
  ghost function Emit(items: seq<Item>, key: string, v: Value): seq<Item>
    decreases v, 2
  {
    match v
    case Null => items
    case LiteralValue(l) => SetAttribute(items, key, [IdentToken(l)])
    case LiteralList(ls) => if ls == [] then items else SetAttribute(items, key, LiteralListTokens(ls))
    case ObjectList(os) => items + ObjectBlocks(key, os)
    case ScalarList(rs) =>
      if rs == [] then items
      else SetAttribute(items, key, RenderedTokens(rs))
    case ObjectValue(o) => items + [Block(key, ObjectBody(o))]
    case MapValue(es) => if |es| == 0 then items else SetAttribute(items, key, MapTokens(es))
    case Scalar(r) => SetAttribute(items, key, [RenderedToken(r)])
  }

  /** One block named `key` per object, in list order. */
  ghost function ObjectBlocks(key: string, os: seq<Object>): seq<Item>
    decreases os
  {
    if os == [] then []
    else ObjectBlocks(key, os[..|os| - 1]) + [Block(key, ObjectBody(os[|os| - 1]))]
  }

  /** The body of the block written for an object: its attributes written in sorted key order. */
  ghost function ObjectBody(o: Object): seq<Item>
    decreases o, 1
  {
    EmitFields([], SortedKeys(o.fields.Keys), o)
  }

  /** Writes the attributes `keys` of `o` one after the other (a key that is not an attribute writes nothing). */
  ghost function EmitFields(items: seq<Item>, keys: seq<string>, o: Object): seq<Item>
    decreases o, 0, |keys|
  {
    if keys == [] then items
    else if keys[0] in o.fields then EmitFields(Emit(items, keys[0], o.fields[keys[0]]), keys[1..], o)
    else EmitFields(items, keys[1..], o)
  }

  /** A list of objects becomes exactly one block per element, the i-th block written from the i-th object. */
  lemma {:induction false} ObjectBlocksAt(key: string, os: seq<Object>)
    ensures |ObjectBlocks(key, os)| == |os|
    ensures forall i :: 0 <= i < |os| ==> ObjectBlocks(key, os)[i] == Block(key, ObjectBody(os[i]))
  {
    if os != [] {
      var init := os[..|os| - 1];
      var o := os[|os| - 1];
      ObjectBlocksAt(key, init);
      assert init + [o] == os;
      ObjectBlocksSnoc(key, init, o);
      var blocks := ObjectBlocks(key, init);
      forall i | 0 <= i < |os|
        ensures ObjectBlocks(key, os)[i] == Block(key, ObjectBody(os[i]))
      {
        if i < |init| {
          assert os[i] == init[i] && ObjectBlocks(key, os)[i] == blocks[i];
        }
      }
    }
  }

  lemma ObjectBlocksSnoc(key: string, init: seq<Object>, o: Object)
    ensures ObjectBlocks(key, init + [o]) == ObjectBlocks(key, init) + [Block(key, ObjectBody(o))]
  {
    assert (init + [o])[..|init + [o]| - 1] == init;
  }

  /** Whatever `writeValue` adds to a body that has no attribute `key`, it adds at the end, all named `key`. */
  lemma EmitAppends(items: seq<Item>, key: string, v: Value)
    requires forall i :: 0 <= i < |items| ==> items[i].name != key
    ensures |Emit(items, key, v)| >= |items|
    ensures Emit(items, key, v)[..|items|] == items
    ensures forall i :: |items| <= i < |Emit(items, key, v)| ==> Emit(items, key, v)[i].name == key
  {
    var extra: seq<Item>;
    match v {
      case ObjectList(os) =>
        ObjectBlocksAt(key, os);
        extra := ObjectBlocks(key, os);
      case Null =>
        extra := [];
      case ObjectValue(o) =>
        extra := [Block(key, ObjectBody(o))];
      case LiteralValue(l) =>
        SetAttributeAppends(items, key, [IdentToken(l)]);
        extra := [Attribute(key, [IdentToken(l)])];
      case LiteralList(ls) =>
        if ls == [] {
          extra := [];
        } else {
          SetAttributeAppends(items, key, LiteralListTokens(ls));
          extra := [Attribute(key, LiteralListTokens(ls))];
        }
      case ScalarList(rs) =>
        if rs == [] {
          extra := [];
        } else {
          SetAttributeAppends(items, key, RenderedTokens(rs));
          extra := [Attribute(key, RenderedTokens(rs))];
        }
      case MapValue(es) =>
        if |es| == 0 {
          extra := [];
        } else {
          SetAttributeAppends(items, key, MapTokens(es));
          extra := [Attribute(key, MapTokens(es))];
        }
      case Scalar(r) =>
        SetAttributeAppends(items, key, [RenderedToken(r)]);
        extra := [Attribute(key, [RenderedToken(r)])];
    }
    assert Emit(items, key, v) == items + extra;
    assert forall i :: 0 <= i < |extra| ==> extra[i].name == key;
    AppendedNamed(items, extra, key);
  }

  lemma AppendedNamed(items: seq<Item>, extra: seq<Item>, key: string)
    requires forall i :: 0 <= i < |extra| ==> extra[i].name == key
    ensures (items + extra)[..|items|] == items
    ensures forall i :: |items| <= i < |items + extra| ==> (items + extra)[i].name == key
  {
    forall i | |items| <= i < |items + extra|
      ensures (items + extra)[i].name == key
    {
      assert (items + extra)[i] == extra[i - |items|];
    }
  }


  /**
    Writing the attributes of an object in increasing key order keeps a body's entries
    ordered by name, and every new entry is named after one of the keys.
  */
  lemma {:induction false} EmitFieldsSorted(items: seq<Item>, keys: seq<string>, o: Object)
    requires forall k :: k in keys ==> k in o.fields
    requires StrictlySorted(keys)
    requires SortedBy(items, ItemName)
    requires forall i, j :: 0 <= i < |items| && 0 <= j < |keys| ==> Less(items[i].name, keys[j])
    ensures SortedBy(EmitFields(items, keys, o), ItemName)
    ensures forall it :: it in EmitFields(items, keys, o) ==> it in items || it.name in keys
    decreases |keys|
  {
    if keys != [] {
      var k := keys[0];
      var next := Emit(items, k, o.fields[k]);
      forall i | 0 <= i < |items| ensures items[i].name != k {
        LessIrreflexive(k);
      }
      EmitAppends(items, k, o.fields[k]);
      forall i, j | 0 <= i < j < |next| ensures !Less(ItemName(next[j]), ItemName(next[i])) {
        if j < |items| {
          assert next[i] == items[i] && next[j] == items[j];
        } else if i < |items| {
          assert next[i] == items[i];
          LessAsymmetric(items[i].name, k);
        } else {
          LessIrreflexive(k);
        }
      }
      forall i, j | 0 <= i < |next| && 0 <= j < |keys[1..]| ensures Less(next[i].name, keys[1..][j]) {
        assert Less(k, keys[j + 1]);
        if i < |items| {
          assert next[i] == items[i];
          LessTransitive(items[i].name, k, keys[j + 1]);
        }
      }
      assert StrictlySorted(keys[1..]);
      EmitFieldsSorted(next, keys[1..], o);
      forall it | it in EmitFields(next, keys[1..], o) ensures it in items || it.name in keys {
        if it !in next {
        } else {
          var i :| 0 <= i < |next| && next[i] == it;
          if i < |items| {
            assert it == items[i];
          }
        }
      }
    }
  }

  /** The block written for an object lists its attributes by name in sorted order, each named after a key. */
  lemma ObjectBodySorted(o: Object)
    ensures SortedBy(ObjectBody(o), ItemName)
    ensures forall it :: it in ObjectBody(o) ==> it.name in o.fields
  {
    EmitFieldsSorted([], SortedKeys(o.fields.Keys), o);
  }

  /** `writeLiteral`: the attribute `key` holds the literal's text as one raw identifier token. */
  method WriteLiteral(body: Body, key: string, lit: Literal)
    modifies body
    ensures body.items == SetAttribute(old(body.items), key, [IdentToken(lit)])
  {
    body.SetAttributeRaw(key, [Token(Ident, lit.text, 0)]);
  }

  /** `writeLiteralList`: the attribute `key` holds the bracketed list of the literals. */
  method WriteLiteralList(body: Body, key: string, lits: seq<Literal>)
    modifies body
    ensures body.items == SetAttribute(old(body.items), key, LiteralListTokens(lits))
  {
    body.SetAttributeRaw(key, LiteralListTokens(lits));
  }

  /** `writeValue`: writes `v` under `key` as `Emit` describes. */
  method WriteValue(body: Body, key: string, v: Value)
    modifies body
    ensures body.items == Emit(old(body.items), key, v)
    decreases v, 2
  {
    match v
    case Null =>
    case LiteralValue(l) =>
      WriteLiteral(body, key, l);
    case LiteralList(ls) =>
      if ls != [] {
        WriteLiteralList(body, key, ls);
      }
    case ObjectList(os) =>
      WriteObjectList(body, key, os);
    case ScalarList(rs) =>
      if rs != [] {
        body.SetAttributeRaw(key, RenderedTokens(rs));
      }
    case ObjectValue(o) =>
      var inner := WriteObjectBody(o);
      body.AppendBlock(key, inner);
    case MapValue(es) =>
      OldWriteMap(body, key, es);
    case Scalar(r) =>
      body.SetAttributeRaw(key, [RenderedToken(r)]);
  }

  /** The loop of `writeValue` over a list of objects: one nested block per object, in order. */
  method WriteObjectList(body: Body, key: string, os: seq<Object>)
    modifies body
    ensures body.items == old(body.items) + ObjectBlocks(key, os)
    decreases ObjectList(os), 1
  {
    for i := 0 to |os|
      invariant body.items == old(body.items) + ObjectBlocks(key, os[..i])
    {
      ghost var done := ObjectBlocks(key, os[..i]);
      var inner := WriteObjectBody(os[i]);
      body.AppendBlock(key, inner);
      assert os[..i + 1][..i] == os[..i];
      assert ObjectBlocks(key, os[..i + 1]) == done + [Block(key, inner)];
      AppendAssoc(old(body.items), done, [Block(key, inner)]);
    }
    assert os[..|os|] == os;
  }

  /** The nested block of an object: `writeValue` on each of its attributes, in sorted key order. */
  method WriteObjectBody(o: Object) returns (items: seq<Item>)
    ensures items == ObjectBody(o)
    decreases o, 1
  {
    var child := new Body();
    var gathered := MapKeys(o.fields.Keys);
    var keys := SortKeys(gathered, o.fields.Keys);
    for i := 0 to |keys|
      invariant EmitFields(child.items, keys[i..], o) == ObjectBody(o)
    {
      assert keys[i] in keys;
      EmitFieldsStep(child.items, keys, i, o);
      WriteValue(child, keys[i], o.fields[keys[i]]);
    }
    assert keys[|keys|..] == [];
    items := child.items;
  }

  lemma EmitFieldsStep(items: seq<Item>, keys: seq<string>, i: nat, o: Object)
    requires i < |keys| && keys[i] in o.fields
    ensures EmitFields(items, keys[i..], o) == EmitFields(Emit(items, keys[i], o.fields[keys[i]]), keys[i + 1..], o)
  {
    assert keys[i..][1..] == keys[i + 1..];
  }
}
