/** The list-query builder: filtering, sorting, field projection and pagination, each a step
    that rewrites the database query under construction from the request's query string. */
module QueryFeatures {
  import opened Common

  /** A query-string value as the request parser produces it: a string, or one level of
      bracketed keys (`price[gte]=10` gives `{gte: "10"}`). */
  datatype Value = Str(s: string) | Object(entries: seq<Pair>)
  datatype Pair = Pair(key: string, value: string)
  datatype Field = Field(key: string, value: Value)

  /** The query-string object, its keys in insertion order. */
  type QueryString = seq<Field>

  /** The value of the first field named k. */
  function Lookup(q: QueryString, k: string): (r: Option<Value>)
    ensures r.None? <==> forall f | f in q :: f.key != k
    ensures r.Some? ==> Field(k, r.value) in q
  {
    if q == [] then None
    else if q[0].key == k then Some(q[0].value)
    else Lookup(q[1..], k)
  }

  /** JavaScript truthiness of a looked-up value: absent and the empty string are falsy. */
  predicate Truthy(v: Option<Value>) {
    v.Some? && (v.value.Object? || v.value.s != "")
  }

  /** The keys `filter` removes before building the conditions (`limit` is not among them). */
  const Excluded: seq<string> := ["page", "sort", "keyword", "fields", "limits"]

  /** The fields whose key is not in ks, in order. */
  function WithoutKeys(q: QueryString, ks: seq<string>): (r: QueryString)
    ensures |r| <= |q|
  {
    if q == [] then []
    else (if q[0].key in ks then [] else [q[0]]) + WithoutKeys(q[1..], ks)
  }

  /** A field survives exactly when its key is not one of ks; in particular `limit` survives
      the Excluded keys. */
  lemma {:induction false} WithoutKeysMembers(q: QueryString, ks: seq<string>, f: Field)
    ensures f in WithoutKeys(q, ks) <==> f in q && f.key !in ks
  {
    if q != [] {
      WithoutKeysMembers(q[1..], ks, f);
      assert f in q <==> f == q[0] || f in q[1..];
    }
  }

  /** Deleting one more key after several is deleting them all at once. */
  lemma {:induction false} WithoutOneMoreKey(q: QueryString, ks: seq<string>, k: string)
    ensures WithoutKeys(WithoutKeys(q, ks), [k]) == WithoutKeys(q, ks + [k])
  {
    if q != [] {
      WithoutOneMoreKey(q[1..], ks, k);
      var head := if q[0].key in ks then [] else [q[0]];
      assert WithoutKeys(q, ks) == head + WithoutKeys(q[1..], ks);
      WithoutKeysAppend(head, WithoutKeys(q[1..], ks), [k]);
    }
  }

  /** Deleting no key leaves the copy as it was. */
  lemma {:induction false} WithoutNoKeys(q: QueryString)
    ensures WithoutKeys(q, []) == q
  {
    if q != [] {
      WithoutNoKeys(q[1..]);
      assert [q[0]] + q[1..] == q;
    }
  }

  lemma {:induction false} WithoutKeysAppend(a: QueryString, b: QueryString, ks: seq<string>)
    ensures WithoutKeys(a + b, ks) == WithoutKeys(a, ks) + WithoutKeys(b, ks)
  {
    if a == [] {
      assert a + b == b;
    } else {
      var s := a + b;
      WithoutKeysAppend(a[1..], b, ks);
      assert s[0] == a[0] && s[1..] == a[1..] + b;
      var head := if a[0].key in ks then [] else [a[0]];
      assert WithoutKeys(s, ks) == head + WithoutKeys(s[1..], ks);
      assert (head + WithoutKeys(a[1..], ks)) + WithoutKeys(b, ks) ==
             head + (WithoutKeys(a[1..], ks) + WithoutKeys(b, ks));
    }
  }

  // ---------------------------------------------------------------------------------------
  // The operator rewrite: `/\b(gte|gt|lte|lt)\b/g` replaced by `$` and the match, on the
  // serialised conditions.

  /** The characters `\w` matches; `\b` holds between a word character and anything else. */
  predicate IsWordChar(c: char) {
    'a' <= c <= 'z' || 'A' <= c <= 'Z' || '0' <= c <= '9' || c == '_'
  }

  /** The four operator words, spelt out letter by letter: `g` or `l`, then `t`, then an
      optional `e`. */
  predicate IsOperator(w: string) {
    (|w| == 2 || (|w| == 3 && w[2] == 'e')) && (w[0] == 'g' || w[0] == 'l') && w[1] == 't'
  }

  /** IsOperator holds exactly for the words the pattern's alternation lists. */
  lemma OperatorWords(w: string)
    ensures IsOperator(w) <==> w == "gte" || w == "gt" || w == "lte" || w == "lt"
  {
    if IsOperator(w) {
      if |w| == 2 {
        assert w == [w[0], w[1]];
      } else {
        assert w == [w[0], w[1], w[2]];
      }
    }
  }

  /** s begins with an operator word followed by the end of s or a non-word character: the
      alternation and the closing `\b` of the pattern, read at the start of s. */
  predicate StartsOperator(s: string) {
    && |s| >= 2 && (s[0] == 'g' || s[0] == 'l') && s[1] == 't'
    && (|s| == 2 || !IsWordChar(s[2]) || (s[2] == 'e' && (|s| == 3 || !IsWordChar(s[3]))))
  }

  /** The global replacement, scanning left to right. afterWord says whether the character
      before s is a word character, in which case the opening `\b` fails and no match starts
      here. A match is followed by its own word characters, so matches never overlap. */
  function RewriteFrom(s: string, afterWord: bool): (r: string)
    ensures |s| <= |r|
  {
    if s == [] then []
    else (if !afterWord && StartsOperator(s) then "$" else "") + [s[0]] + RewriteFrom(s[1..], IsWordChar(s[0]))
  }

  /** The rewrite of a whole text, whose start is a word boundary. */
  function ReplaceOps(s: string): (r: string)
    ensures |s| <= |r|
  {
    RewriteFrom(s, false)
  }

  /** The regrouping step of RewriteSplit, kept apart so that its sequence reasoning does not
      enter RewriteSplit's larger context. */
  lemma Regroup(p: string, x: string, y: string, c: char, z: string)
    requires x == y + [c] + z
    ensures p + x == (p + y) + [c] + z
  {
  }

  /** Inside a word nothing is rewritten. */
  lemma {:induction false} InsideWord(w: string)
    requires forall i | 0 <= i < |w| :: IsWordChar(w[i])
    ensures RewriteFrom(w, true) == w
  {
    if w != [] {
      InsideWord(w[1..]);
      assert [w[0]] + w[1..] == w;
    }
  }

  /** An operator standing alone gets its `$`; any other whole word is left alone. */
  lemma ReplaceOpsOnWord(w: string)
    requires w != [] && forall i | 0 <= i < |w| :: IsWordChar(w[i])
    ensures ReplaceOps(w) == if IsOperator(w) then "$" + w else w
  {
    InsideWord(w[1..]);
    assert StartsOperator(w) <==> IsOperator(w);
    assert [w[0]] + w[1..] == w;
  }

  /** Whether an operator starts at the front does not depend on what follows a non-word
      character. */
  lemma StartsOperatorSplit(a: string, c: char, b: string)
    requires !IsWordChar(c)
    ensures StartsOperator(a + [c] + b) == StartsOperator(a)
  {
    var s := a + [c] + b;
    assert forall i | 0 <= i < |a| :: s[i] == a[i];
    assert s[|a|] == c;
  }

  /** A non-word character splits the rewrite: no match straddles it, and a boundary follows
      it. */
  lemma {:induction false} RewriteSplit(a: string, c: char, b: string, afterWord: bool)
    requires !IsWordChar(c)
    ensures RewriteFrom(a + [c] + b, afterWord) == RewriteFrom(a, afterWord) + [c] + RewriteFrom(b, false)
  {
    var s := a + [c] + b;
    StartsOperatorSplit(a, c, b);
    if a == [] {
      assert s == [c] + b && s[1..] == b;
    } else {
      assert s[0] == a[0] && s[1..] == a[1..] + [c] + b;
      RewriteSplit(a[1..], c, b, IsWordChar(a[0]));
      var p := (if !afterWord && StartsOperator(a) then "$" else "") + [a[0]];
      Regroup(p, RewriteFrom(s[1..], IsWordChar(a[0])), RewriteFrom(a[1..], IsWordChar(a[0])), c, RewriteFrom(b, false));
    }
  }

  /** The rewrite of a text acts separately on each side of a non-word character. */
  lemma ReplaceOpsSplit(a: string, c: char, b: string)
    requires !IsWordChar(c)
    ensures ReplaceOps(a + [c] + b) == ReplaceOps(a) + [c] + ReplaceOps(b)
  {
    RewriteSplit(a, c, b, false);
  }

  /** The serialised form of the conditions, as `JSON.stringify` writes them for strings that
      contain no character it escapes. */
  function Quote(s: string): (r: string)
    ensures |r| == |s| + 2 && r[0] == '"' && r[|r| - 1] == '"'
  {
    "\"" + s + "\""
  }

  /** One `"key":value` member. */
  function Member(key: string, valueText: string): (r: string)
    ensures |r| == |key| + 3 + |valueText|
    ensures valueText != [] ==> r[|r| - 1] == valueText[|valueText| - 1]
  {
    Quote(key) + ":" + valueText
  }

  function PairsText(ps: seq<Pair>): string {
    if ps == [] then ""
    else Member(ps[0].key, Quote(ps[0].value)) + (if |ps| == 1 then "" else "," + PairsText(ps[1..]))
  }

  function ValueText(v: Value): (r: string)
    ensures r != [] && !IsWordChar(r[0]) && !IsWordChar(r[|r| - 1])
  {
    match v
    case Str(s) => Quote(s)
    case Object(es) => "{" + PairsText(es) + "}"
  }

  function FieldsText(fs: QueryString): string {
    if fs == [] then ""
    else Member(fs[0].key, ValueText(fs[0].value)) + (if |fs| == 1 then "" else "," + FieldsText(fs[1..]))
  }

  function Serialise(q: QueryString): string {
    "{" + FieldsText(q) + "}"
  }

  /** The rewrite applied key by key and string by string. */
  function NormalisePairs(ps: seq<Pair>): (r: seq<Pair>)
    ensures |r| == |ps|
    ensures forall i | 0 <= i < |ps| :: r[i] == Pair(ReplaceOps(ps[i].key), ReplaceOps(ps[i].value))
  {
    if ps == [] then [] else [Pair(ReplaceOps(ps[0].key), ReplaceOps(ps[0].value))] + NormalisePairs(ps[1..])
  }

  function NormaliseValue(v: Value): Value {
    match v
    case Str(s) => Str(ReplaceOps(s))
    case Object(es) => Object(NormalisePairs(es))
  }

  function Normalise(q: QueryString): (r: QueryString)
    ensures |r| == |q|
    ensures forall i | 0 <= i < |q| :: r[i] == Field(ReplaceOps(q[i].key), NormaliseValue(q[i].value))
  {
    if q == [] then [] else [Field(ReplaceOps(q[0].key), NormaliseValue(q[0].value))] + Normalise(q[1..])
  }

  /** A text between two punctuation characters is rewritten on its own. */
  lemma Enclosed(open: char, s: string, close: char)
    requires !IsWordChar(open) && !IsWordChar(close)
    ensures ReplaceOps([open] + s + [close]) == [open] + ReplaceOps(s) + [close]
  {
    ReplaceOpsSplit([], open, s + [close]);
    ReplaceOpsSplit(s, close, []);
    assert [open] + s + [close] == [] + [open] + (s + [close]);
    assert s + [close] == s + [close] + [];
  }

  lemma QuoteRewrite(s: string)
    ensures ReplaceOps(Quote(s)) == Quote(ReplaceOps(s))
  {
    Enclosed('"', s, '"');
  }

  lemma MemberRewrite(key: string, valueText: string)
    requires valueText != [] && !IsWordChar(valueText[0])
    ensures ReplaceOps(Member(key, valueText)) == Member(ReplaceOps(key), ReplaceOps(valueText))
  {
    QuoteRewrite(key);
    ReplaceOpsSplit(Quote(key), ':', valueText);
  }

  /** A member followed by the rest of the list: rewritten piece by piece. */
  lemma ListRewrite(member: string, rest: string)
    requires member != [] && !IsWordChar(member[|member| - 1])
    ensures ReplaceOps(member + ("," + rest)) == ReplaceOps(member) + ("," + ReplaceOps(rest))
  {
    assert member + ("," + rest) == member + [','] + rest;
    ReplaceOpsSplit(member, ',', rest);
  }

  lemma {:induction false} PairsRewrite(ps: seq<Pair>)
    ensures ReplaceOps(PairsText(ps)) == PairsText(NormalisePairs(ps))
  {
    if ps != [] {
      var nps := NormalisePairs(ps);
      var m := Member(ps[0].key, Quote(ps[0].value));
      var m' := Member(nps[0].key, Quote(nps[0].value));
      assert nps[0] == Pair(ReplaceOps(ps[0].key), ReplaceOps(ps[0].value));
      QuoteRewrite(ps[0].value);
      MemberRewrite(ps[0].key, Quote(ps[0].value));
      if |ps| == 1 {
        assert PairsText(ps) == m + "" == m;
        assert PairsText(nps) == m' + "" == m';
      } else {
        PairsRewrite(ps[1..]);
        assert nps[1..] == NormalisePairs(ps[1..]);
        ListRewrite(m, PairsText(ps[1..]));
      }
    }
  }

  lemma ValueRewrite(v: Value)
    ensures ReplaceOps(ValueText(v)) == ValueText(NormaliseValue(v))
  {
    match v
    case Str(s) => QuoteRewrite(s);
    case Object(es) =>
      PairsRewrite(es);
      Enclosed('{', PairsText(es), '}');
  }

  lemma {:induction false} FieldsRewrite(fs: QueryString)
    ensures ReplaceOps(FieldsText(fs)) == FieldsText(Normalise(fs))
  {
    if fs != [] {
      var nfs := Normalise(fs);
      var m := Member(fs[0].key, ValueText(fs[0].value));
      var m' := Member(nfs[0].key, ValueText(nfs[0].value));
      assert nfs[0] == Field(ReplaceOps(fs[0].key), NormaliseValue(fs[0].value));
      ValueRewrite(fs[0].value);
      MemberRewrite(fs[0].key, ValueText(fs[0].value));
      if |fs| == 1 {
        assert FieldsText(fs) == m + "" == m;
        assert FieldsText(nfs) == m' + "" == m';
      } else {
        FieldsRewrite(fs[1..]);
        assert nfs[1..] == Normalise(fs[1..]);
        ListRewrite(m, FieldsText(fs[1..]));
      }
    }
  }

  /** Rewriting the serialised conditions is serialising the conditions rewritten key by key
      and string by string; parsing the text back therefore gives Normalise(q). */
  lemma SerialisedRewrite(q: QueryString)
    ensures ReplaceOps(Serialise(q)) == Serialise(Normalise(q))
  {
    FieldsRewrite(q);
    Enclosed('{', FieldsText(q), '}');
  }

  // ---------------------------------------------------------------------------------------
  // `split(',').join(' ')`

  /** `s.split(sep)`: the pieces between separators, at least one. */
  function Split(s: string, sep: char): (parts: seq<string>)
    ensures |parts| >= 1
    ensures forall i | 0 <= i < |parts| :: sep !in parts[i]
  {
    if s == [] then [""]
    else
      var rest := Split(s[1..], sep);
      if s[0] == sep then [""] + rest
      else [[s[0]] + rest[0]] + rest[1..]
  }

  /** `parts.join(sep)`. */
  function Join(parts: seq<string>, sep: char): string
    requires |parts| >= 1
  {
    if |parts| == 1 then parts[0] else parts[0] + [sep] + Join(parts[1..], sep)
  }

  /** Joining the pieces with the separator they were split on gives the string back. */
  lemma {:induction false} JoinSplit(s: string, sep: char)
    ensures Join(Split(s, sep), sep) == s
  {
    if s != [] {
      var rest := Split(s[1..], sep);
      JoinSplit(s[1..], sep);
      if s[0] == sep {
        assert Split(s, sep)[1..] == rest;
      } else {
        var parts := Split(s, sep);
        assert parts[1..] == rest[1..];
        if |rest| > 1 {
          assert rest == [rest[0]] + rest[1..];
        }
      }
    }
  }

  lemma SplitCons(c: char, t: string, sep: char)
    ensures Split([c] + t, sep) == if c == sep then [""] + Split(t, sep)
                                   else [[c] + Split(t, sep)[0]] + Split(t, sep)[1..]
  {
    assert ([c] + t)[1..] == t;
  }

  /** Splitting a join on a separator that no piece contains gives the pieces back. */
  lemma {:induction false} SplitJoin(parts: seq<string>, sep: char)
    requires |parts| >= 1 && forall i | 0 <= i < |parts| :: sep !in parts[i]
    ensures Split(Join(parts, sep), sep) == parts
    decreases |parts|, |parts[0]|
  {
    if |parts| == 1 {
      SplitPlain(parts[0], sep);
    } else if parts[0] == [] {
      SplitJoin(parts[1..], sep);
      SplitJoinEmptyHead(parts, sep);
    } else {
      var parts' := [parts[0][1..]] + parts[1..];
      assert parts'[0] == parts[0][1..] && parts'[1..] == parts[1..];
      SplitJoin(parts', sep);
      SplitJoinLongHead(parts, sep);
    }
  }

  /** The step of SplitJoin past an empty first piece. */
  lemma SplitJoinEmptyHead(parts: seq<string>, sep: char)
    requires |parts| > 1 && parts[0] == []
    requires Split(Join(parts[1..], sep), sep) == parts[1..]
    ensures Split(Join(parts, sep), sep) == parts
  {
    var joined := Join(parts[1..], sep);
    assert Join(parts, sep) == [sep] + joined;
    SplitCons(sep, joined, sep);
    assert parts == [""] + parts[1..];
  }

  /** The step of SplitJoin past the first character of a first piece without separators. */
  lemma SplitJoinLongHead(parts: seq<string>, sep: char)
    requires |parts| > 1 && parts[0] != [] && sep !in parts[0]
    requires Split(Join([parts[0][1..]] + parts[1..], sep), sep) == [parts[0][1..]] + parts[1..]
    ensures Split(Join(parts, sep), sep) == parts
  {
    var p, tail := parts[0], Join(parts[1..], sep);
    var parts' := [p[1..]] + parts[1..];
    assert parts'[0] == p[1..] && parts'[1..] == parts[1..];
    var joined := Join(parts', sep);
    assert joined == p[1..] + [sep] + tail;
    assert p == [p[0]] + p[1..];
    assert ([p[0]] + p[1..]) + [sep] == [p[0]] + (p[1..] + [sep]);
    assert ([p[0]] + (p[1..] + [sep])) + tail == [p[0]] + ((p[1..] + [sep]) + tail);
    assert Join(parts, sep) == [p[0]] + joined;
    assert p[0] != sep by { assert p[0] in p; }
    SplitCons(p[0], joined, sep);
    assert parts == [p] + parts[1..];
  }

  lemma {:induction false} SplitPlain(s: string, sep: char)
    requires sep !in s
    ensures Split(s, sep) == [s]
  {
    if s != [] {
      SplitPlain(s[1..], sep);
      assert [s[0]] + s[1..] == s;
    }
  }

  /** `value.split(',').join(' ')`: the comma list as the space list the query builder takes.
      No comma survives, and when the value has no spaces the commas come back by the reverse
      rewrite. */
  function SpaceList(s: string): (r: string)
    ensures ',' !in r
    ensures ' ' !in s ==> Join(Split(r, ' '), ',') == s
  {
    SpaceListRoundTrip(s);
    Join(Split(s, ','), ' ')
  }

  lemma SpaceListRoundTrip(s: string)
    ensures ',' !in Join(Split(s, ','), ' ')
    ensures ' ' !in s ==> Join(Split(Join(Split(s, ','), ' '), ' '), ',') == s
  {
    var parts := Split(s, ',');
    JoinHasNo(parts, ' ', ',');
    if ' ' !in s {
      forall i | 0 <= i < |parts| ensures ' ' !in parts[i] {
        PiecesOf(s, ',', i, ' ');
      }
      SplitJoin(parts, ' ');
      JoinSplit(s, ',');
    }
  }

  lemma {:induction false} JoinHasNo(parts: seq<string>, sep: char, c: char)
    requires |parts| >= 1 && c != sep && forall i | 0 <= i < |parts| :: c !in parts[i]
    ensures c !in Join(parts, sep)
  {
    if |parts| > 1 {
      JoinHasNo(parts[1..], sep, c);
    }
  }

  /** A character absent from s is absent from every piece of s. */
  lemma {:induction false} PiecesOf(s: string, sep: char, i: nat, c: char)
    requires c !in s && i < |Split(s, sep)|
    ensures c !in Split(s, sep)[i]
  {
    if s != [] {
      var rest := Split(s[1..], sep);
      if s[0] == sep {
        if i > 0 { PiecesOf(s[1..], sep, i - 1, c); }
      } else if i == 0 {
        PiecesOf(s[1..], sep, 0, c);
      } else {
        PiecesOf(s[1..], sep, i, c);
      }
    }
  }

  // ---------------------------------------------------------------------------------------
  // Pagination

  /** The page size: `limit` is the constant 50. */
  const Limit: int := 50

  function DigitValue(c: char): nat
    requires '0' <= c <= '9'
  {
    (c as int - '0' as int) as nat
  }

  predicate AllDigits(s: string) {
    forall i | 0 <= i < |s| :: '0' <= s[i] <= '9'
  }

  /** The value of a string of decimal digits. */
  function DigitsValue(s: string): nat
    requires AllDigits(s)
  {
    if s == [] then 0 else DigitsValue(s[..|s| - 1]) * 10 + DigitValue(s[|s| - 1])
  }

  /** The decimal numeral of n, without leading zeros. */
  function Decimal(n: nat): (s: string)
    ensures s != [] && AllDigits(s)
  {
    if n < 10 then [('0' as int + n) as char]
    else Decimal(n / 10) + [('0' as int + n % 10) as char]
  }

  lemma {:induction false} DecimalValue(n: nat)
    ensures DigitsValue(Decimal(n)) == n
  {
    if n >= 10 {
      DecimalValue(n / 10);
      var s := Decimal(n);
      assert s[..|s| - 1] == Decimal(n / 10);
    }
  }

  /** `Number(s)` for the numerals the model reads: digits with an optional leading minus, the
      empty string being 0. Anything else is NaN (None). */
  function NumberValue(s: string): (r: Option<int>)
    ensures AllDigits(s) ==> r == Some(DigitsValue(s))
  {
    if AllDigits(s) then Some(DigitsValue(s))
    else if |s| >= 2 && s[0] == '-' && AllDigits(s[1..]) then Some(0 - DigitsValue(s[1..]))
    else None
  }

  /** `this.queryString.page * 1 || 1`: the page number, 1 when it is absent, 0 or not a
      number. */
  function PageNumber(v: Option<Value>): (page: int)
    ensures page != 0
    ensures v.None? ==> page == 1
    ensures forall n: nat :: n >= 1 && v == Some(Str(Decimal(n))) ==> page == n
  {
    DecimalValues();
    match v
    case Some(Str(s)) =>
      (match NumberValue(s) case Some(n) => if n != 0 then n else 1 case None => 1)
    case _ => 1
  }

  lemma DecimalValues()
    ensures forall n: nat :: DigitsValue(Decimal(n)) == n
  {
    forall n: nat ensures DigitsValue(Decimal(n)) == n {
      DecimalValue(n);
    }
  }

  /** `Math.ceil(count / 50)`: the number of pages of 50 that hold count documents. */
  function NumberOfPages(count: nat): (n: nat)
    ensures n * Limit >= count
    ensures n == 0 || (n - 1) * Limit < count
  {
    (count + Limit - 1) / Limit
  }

  datatype Pagination = Pagination(currentPage: int, limit: int, numberOfPages: nat)

  /** Whether `paginate` reaches one of the steps `page++` or `page--` on the constant `page`,
      which throw: when a page follows the current one, or when the current page skips any
      document. */
  predicate StepsPage(page: int, count: nat) {
    page * Limit < count || (page - 1) * Limit > 0
  }

  /** For every page `PageNumber` can give, `paginate` gets past both steps exactly on the
      first page of a collection that fits on one page: any collection of more than 50
      documents, and any page after the first, throws. */
  lemma {:induction false} PagingSucceedsOnlyOnOnePage(page: int, count: nat)
    requires page != 0
    ensures !StepsPage(page, count) <==> page == 1 && NumberOfPages(count) <= 1
  {
    if page < 0 {
      assert page * Limit < 0 <= count;
    } else if page >= 2 {
      assert (page - 1) * Limit >= Limit;
    }
  }

  /** The database query under construction: the conditions given to each `find`, the sort
      and projection strings, and skip and limit. */
  datatype Query = Query(conditions: seq<QueryString>, sortBy: Option<string>,
                         projection: Option<string>, skip: Option<int>, limit: Option<int>)

  /** What `sort` and `limitFields` give the query for the value v: the comma list as a space
      list, the fallback (`-createdAt` for sort, `-__v` for the projection) when v is falsy;
      None when v is not a string (`split` is not a function: TypeError). */
  function CommaListOr(v: Option<Value>, fallback: string): (r: Option<string>)
    ensures !Truthy(v) ==> r == Some(fallback)
    ensures r.None? <==> v.Some? && v.value.Object?
    ensures r.Some? && Truthy(v) ==> ',' !in r.value
  {
    if !Truthy(v) then Some(fallback)
    else if v.value.Object? then None
    else Some(SpaceList(v.value.s))
  }

  class ApiFeatures {
    var query: Query
    const queryString: QueryString
    var pagination: Option<Pagination>

    constructor (query: Query, queryString: QueryString)
      ensures this.query == query && this.queryString == queryString && pagination == None
    {
      this.query := query;
      this.queryString := queryString;
      pagination := None;
    }

    /** `filter`: copies the query string, deletes the Excluded keys from the copy one by one,
        rewrites the operators and adds the result as conditions. The query string itself is
        left as it was. */
    method Filter()
      modifies this
      ensures query == old(query).(conditions := old(query).conditions +
                                                [Normalise(WithoutKeys(queryString, Excluded))])
      ensures pagination == old(pagination)
    {
      var copy := queryString;
      WithoutNoKeys(queryString);
      for i := 0 to |Excluded|
        invariant copy == WithoutKeys(queryString, Excluded[..i])
        invariant query == old(query) && pagination == old(pagination)
      {
        copy := WithoutKeys(copy, [Excluded[i]]);
        WithoutOneMoreKey(queryString, Excluded[..i], Excluded[i]);
        assert Excluded[..i] + [Excluded[i]] == Excluded[..i + 1];
      }
      assert Excluded[..|Excluded|] == Excluded;
      query := query.(conditions := query.conditions + [Normalise(copy)]);
    }

    /** `sort`; false when it throws, leaving the query as it was. */
    method Sort() returns (ok: bool)
      modifies this
      ensures ok <==> CommaListOr(Lookup(queryString, "sort"), "-createdAt").Some?
      ensures ok ==> query == old(query).(sortBy := CommaListOr(Lookup(queryString, "sort"), "-createdAt"))
      ensures !ok ==> query == old(query)
      ensures pagination == old(pagination)
    {
      var v := Lookup(queryString, "sort");
      if Truthy(v) {
        if v.value.Object? {
          return false;
        }
        query := query.(sortBy := Some(SpaceList(v.value.s)));
      } else {
        query := query.(sortBy := Some("-createdAt"));
      }
      ok := true;
    }

    /** `limitFields`; false when it throws, leaving the query as it was. */
    method LimitFields() returns (ok: bool)
      modifies this
      ensures ok <==> CommaListOr(Lookup(queryString, "fields"), "-__v").Some?
      ensures ok ==> query == old(query).(projection := CommaListOr(Lookup(queryString, "fields"), "-__v"))
      ensures !ok ==> query == old(query)
      ensures pagination == old(pagination)
    {
      var v := Lookup(queryString, "fields");
      if Truthy(v) {
        if v.value.Object? {
          return false;
        }
        query := query.(projection := Some(SpaceList(v.value.s)));
      } else {
        query := query.(projection := Some("-__v"));
      }
      ok := true;
    }

    /** `paginate(countDocuments)`: any truthy `limit` (or `"limit "`) query reaches the
        assignment to the constant `limit`, and a page that StepsPage reaches `page++` or
        `page--`; each throws, so false and no change. Otherwise the query skips
        (page - 1) * 50 documents and takes 50, and the pagination object has no links. */
    method Paginate(countDocuments: nat) returns (ok: bool)
      modifies this
      ensures var page := PageNumber(Lookup(queryString, "page"));
              ok <==> && !Truthy(Lookup(queryString, "limit"))
                      && !Truthy(Lookup(queryString, "limit "))
                      && !StepsPage(page, countDocuments)
      ensures !ok ==> query == old(query) && pagination == old(pagination)
      ensures ok ==>
                var page := PageNumber(Lookup(queryString, "page"));
                && query == old(query).(skip := Some((page - 1) * Limit), limit := Some(Limit))
                && pagination == Some(Pagination(page, Limit, NumberOfPages(countDocuments)))
    {
      var page := PageNumber(Lookup(queryString, "page"));
      var limitValue := Lookup(queryString, "limit");
      if !Truthy(limitValue) {
        limitValue := Lookup(queryString, "limit ");
      }
      if Truthy(limitValue) {
        return false;
      }
      var skip := (page - 1) * Limit;
      var endIndex := page * Limit;
      var p := Pagination(page, Limit, NumberOfPages(countDocuments));
      if endIndex < countDocuments {
        return false;
      }
      if skip > 0 {
        return false;
      }
      query := query.(skip := Some(skip), limit := Some(Limit));
      pagination := Some(p);
      ok := true;
    }
  }
}
