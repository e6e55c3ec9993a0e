/** Comparing stored records by their canonical JSON text (web/workspace-core.js): objects are
    rebuilt with sorted keys and the two texts are compared. This decides whether a response
    belongs to the saved claim. */
module CanonicalJson {
  import opened Sequences
  import opened Strings

  datatype Json =
    | Null
    | Bool(b: bool)
    | Num(text: string)
    | Str(s: string)
    | Arr(items: seq<Json>)
    | Obj(members: seq<Member>)

  /** Members keep the order in which the object was built. */
  datatype Member = Member(key: string, value: Json)

  // ---------------------------------------------------------------- the order of object keys

  predicate IsDigit(c: char) { '0' <= c <= '9' }

  /** Keys that JavaScript treats as array indices: they come first, in numeric order, however an
      object is built. */
  predicate IsIndex(s: string) {
    s != [] && (forall i :: 0 <= i < |s| ==> IsDigit(s[i])) && (s[0] == '0' ==> |s| == 1)
    && (|s| < 10 || (|s| == 10 && TextLess(s, "4294967295")))
  }

  /** The member order of an object built from sorted entries. */
  predicate Before(a: string, b: string) {
    if IsIndex(a) != IsIndex(b) then IsIndex(a)
    else if IsIndex(a) then |a| < |b| || (|a| == |b| && TextLess(a, b))
    else TextLess(a, b)
  }

  lemma BeforeIsStrictOrder(a: string, b: string, c: string)
    ensures !Before(a, a)
    ensures Before(a, b) && Before(b, c) ==> Before(a, c)
    ensures a != b ==> Before(a, b) || Before(b, a)
  {
    TextLessIsStrictOrder(a, b, c);
  }

  // ---------------------------------------------------------------- sorting members

  function Insert(m: Member, ms: seq<Member>): seq<Member>
    decreases |ms|
  {
    if ms == [] || Before(m.key, ms[0].key) then [m] + ms else [ms[0]] + Insert(m, ms[1..])
  }

  function Sort(ms: seq<Member>): seq<Member>
    decreases |ms|
  {
    if ms == [] then [] else Insert(ms[0], Sort(ms[1..]))
  }

  predicate DistinctKeys(ms: seq<Member>) {
    forall i, j :: 0 <= i < j < |ms| ==> ms[i].key != ms[j].key
  }

  predicate Sorted(ms: seq<Member>) {
    forall i, j :: 0 <= i < j < |ms| ==> Before(ms[i].key, ms[j].key)
  }

  lemma {:induction false} InsertSorts(m: Member, ms: seq<Member>)
    requires Sorted(ms) && forall i :: 0 <= i < |ms| ==> ms[i].key != m.key
    ensures Sorted(Insert(m, ms)) && |Insert(m, ms)| == |ms| + 1
    ensures forall x :: x in Insert(m, ms) <==> x == m || x in ms
    decreases |ms|
  {
    if ms != [] {
      BeforeIsStrictOrder(m.key, ms[0].key, ms[0].key);
      if Before(m.key, ms[0].key) {
        forall j | 1 <= j < |ms| ensures Before(m.key, ms[j].key) { BeforeIsStrictOrder(m.key, ms[0].key, ms[j].key); }
      } else {
        var rest := ms[1..];
        InsertSorts(m, rest);
        assert ms == [ms[0]] + rest;
        forall j | 0 <= j < |Insert(m, rest)| ensures Before(ms[0].key, Insert(m, rest)[j].key) {
          assert Insert(m, rest)[j] in Insert(m, rest);
          if Insert(m, rest)[j] != m {
            var i :| 0 <= i < |rest| && rest[i] == Insert(m, rest)[j];
            assert ms[i + 1] == rest[i];
          } else {
            BeforeIsStrictOrder(ms[0].key, m.key, m.key);
          }
        }
      }
    }
  }

  lemma {:induction false} SortSorts(ms: seq<Member>)
    requires DistinctKeys(ms)
    ensures Sorted(Sort(ms)) && |Sort(ms)| == |ms|
    ensures forall x :: x in Sort(ms) <==> x in ms
    decreases |ms|
  {
    if ms != [] {
      SortSorts(ms[1..]);
      var rest := Sort(ms[1..]);
      forall i | 0 <= i < |rest| ensures rest[i].key != ms[0].key {
        assert rest[i] in ms[1..];
        var j :| 0 <= j < |ms[1..]| && ms[1..][j] == rest[i];
        assert ms[j + 1] == rest[i];
      }
      InsertSorts(ms[0], rest);
      assert ms == [ms[0]] + ms[1..];
    }
  }

  /** A sorted list is determined by which members it has, so sorting forgets the original order. */
  lemma {:induction false} SortedIsUnique(a: seq<Member>, b: seq<Member>)
    requires Sorted(a) && Sorted(b) && forall x :: x in a <==> x in b
    ensures a == b
    decreases |a|
  {
    if a == [] {
      if b != [] { HasMember(b); assert false; }
    } else {
      assert a[0] in b && b != [] && b[0] in a;
      HeadsAgree(a, b);
      assert a == [a[0]] + a[1..] && b == [b[0]] + b[1..];
      forall x ensures x in a[1..] <==> x in b[1..] {
        TailMember(a, x);
        TailMember(b, x);
      }
      SortedIsUnique(a[1..], b[1..]);
    }
  }

  lemma HasMember(b: seq<Member>)
    requires b != []
    ensures exists x :: x in b
  {
    assert b[0] in b;
  }

  lemma HeadsAgree(a: seq<Member>, b: seq<Member>)
    requires a != [] && b != [] && Sorted(a) && Sorted(b) && a[0] in b && b[0] in a
    ensures a[0] == b[0]
  {
    var i :| 0 <= i < |b| && b[i] == a[0];
    var j :| 0 <= j < |a| && a[j] == b[0];
    if i > 0 && j > 0 {
      BeforeIsStrictOrder(a[0].key, b[0].key, a[0].key);
    }
  }

  /** In a sorted list the head does not occur again. */
  lemma TailMember(a: seq<Member>, x: Member)
    requires a != [] && Sorted(a)
    ensures x in a[1..] <==> x in a && x != a[0]
  {
    if x in a[1..] {
      var i :| 0 <= i < |a[1..]| && a[1..][i] == x;
      BeforeIsStrictOrder(a[0].key, a[i + 1].key, a[0].key);
      assert Before(a[0].key, a[i + 1].key);
    }
    assert a == [a[0]] + a[1..];
  }

  // ---------------------------------------------------------------- canonical form

  /** canonicalJSON */
  function Canonical(v: Json): Json {
    match v
    case Arr(items) => Arr(seq(|items|, i requires 0 <= i < |items| => Canonical(items[i])))
    case Obj(members) => Obj(Sort(CanonicalMembers(v)))
    case _ => v
  }

  function CanonicalMembers(v: Json): (ms: seq<Member>)
    requires v.Obj?
    ensures |ms| == |v.members| && forall i :: 0 <= i < |ms| ==> ms[i].key == v.members[i].key
    decreases v, 0
  {
    seq(|v.members|, i requires 0 <= i < |v.members| => Member(v.members[i].key, Canonical(v.members[i].value)))
  }

  /** Objects have no key twice, and numbers are written with number characters only. */
  predicate WellFormed(v: Json) {
    match v
    case Num(text) => text != [] && forall i :: 0 <= i < |text| ==> NumberChar(text[i])
    case Arr(items) => forall i :: 0 <= i < |items| ==> WellFormed(items[i])
    case Obj(members) => DistinctKeys(members) && forall i :: 0 <= i < |members| ==> WellFormed(members[i].value)
    case _ => true
  }

  predicate NumberChar(c: char) { IsDigit(c) || c in "+-.eE" }

  /** Equal as JSON: member order does not matter, at any depth. */
  predicate Same(a: Json, b: Json)
    decreases a
  {
    match (a, b)
    case (Arr(x), Arr(y)) => |x| == |y| && forall i :: 0 <= i < |x| ==> Same(x[i], y[i])
    case (Obj(x), Obj(y)) => |x| == |y| && forall i :: 0 <= i < |x| ==> Paired(x[i], y)
    case _ => a == b
  }

  /** Some member of the other object has the same key and a value that is the same as JSON. */
  predicate Paired(m: Member, others: seq<Member>)
    decreases m
  {
    exists j :: 0 <= j < |others| && m.key == others[j].key && Same(m.value, others[j].value)
  }

  lemma {:induction false} CanonicalIffSame(a: Json, b: Json)
    requires WellFormed(a) && WellFormed(b)
    ensures Canonical(a) == Canonical(b) <==> Same(a, b)
    decreases a
  {
    match (a, b) {
      case (Arr(x), Arr(y)) =>
        forall i | 0 <= i < |x| && i < |y| ensures Canonical(x[i]) == Canonical(y[i]) <==> Same(x[i], y[i]) {
          CanonicalIffSame(x[i], y[i]);
        }
        if Canonical(a) == Canonical(b) {
          assert |Canonical(a).items| == |Canonical(b).items|;
          forall i | 0 <= i < |x| ensures Same(x[i], y[i]) {
            assert Canonical(a).items[i] == Canonical(b).items[i];
          }
        }
      case (Obj(x), Obj(y)) =>
        forall i, j | 0 <= i < |x| && 0 <= j < |y|
          ensures Canonical(x[i].value) == Canonical(y[j].value) <==> Same(x[i].value, y[j].value)
        {
          CanonicalIffSame(x[i].value, y[j].value);
        }
        ObjectsIffSame(a, b);
      case _ =>
    }
  }

  predicate ValuesAgree(a: Json, b: Json)
    requires a.Obj? && b.Obj?
  {
    forall i, j :: 0 <= i < |a.members| && 0 <= j < |b.members| ==>
      (Canonical(a.members[i].value) == Canonical(b.members[j].value) <==> Same(a.members[i].value, b.members[j].value))
  }

  lemma ObjectsIffSame(a: Json, b: Json)
    requires a.Obj? && b.Obj? && WellFormed(a) && WellFormed(b) && ValuesAgree(a, b)
    ensures Canonical(a) == Canonical(b) <==> Same(a, b)
  {
    var cx, cy := CanonicalMembers(a), CanonicalMembers(b);
    SortSorts(cx);
    SortSorts(cy);
    if Canonical(a) == Canonical(b) {
      assert forall x :: x in cx <==> x in cy;
      SameFromMembers(a, b);
    }
    if Same(a, b) {
      MembersFromSame(a, b);
      SortedIsUnique(Sort(cx), Sort(cy));
    }
  }

  lemma SameFromMembers(a: Json, b: Json)
    requires a.Obj? && b.Obj? && |a.members| == |b.members| && ValuesAgree(a, b)
    requires forall x :: x in CanonicalMembers(a) <==> x in CanonicalMembers(b)
    ensures Same(a, b)
  {
    var x, y, cx, cy := a.members, b.members, CanonicalMembers(a), CanonicalMembers(b);
    forall i | 0 <= i < |x| ensures Paired(x[i], y) {
      hide Same, Canonical;
      assert cx[i] in cy;
      var j :| 0 <= j < |cy| && cy[j] == cx[i];
      assert Canonical(x[i].value) == Canonical(y[j].value);
      assert x[i].key == y[j].key && Same(x[i].value, y[j].value);
    }
  }

  lemma MembersFromSame(a: Json, b: Json)
    requires a.Obj? && b.Obj? && WellFormed(a) && WellFormed(b) && ValuesAgree(a, b) && Same(a, b)
    ensures forall x :: x in CanonicalMembers(a) <==> x in CanonicalMembers(b)
  {
    var x, y, cx, cy := a.members, b.members, CanonicalMembers(a), CanonicalMembers(b);
    forall i | 0 <= i < |cx| ensures cx[i] in cy {
      assert Paired(x[i], y);
      var j :| 0 <= j < |y| && x[i].key == y[j].key && Same(x[i].value, y[j].value);
      assert cy[j] == cx[i];
    }
    SameElements(cx, cy);
  }

  // ---------------------------------------------------------------- text

  /** JSON.stringify of one character of a string. */
  function Escape(c: char): (r: string)
    ensures r != [] && r[0] != '"'
  {
    if c == '"' then ['\\', '"']
    else if c == '\\' then ['\\', '\\']
    else if c == 8 as char then ['\\', 'b']
    else if c == 9 as char then ['\\', 't']
    else if c == 10 as char then ['\\', 'n']
    else if c == 12 as char then ['\\', 'f']
    else if c == 13 as char then ['\\', 'r']
    else if c < ' ' then ['\\', 'u', '0', '0', HexDigit(c as int / 16), HexDigit(c as int % 16)]
    else [c]
  }

  function Quoted(s: string): string {
    ['"'] + QuotedTail(s)
  }

  function QuotedTail(s: string): string {
    if s == [] then ['"'] else Escape(s[0]) + QuotedTail(s[1..])
  }

  /** JSON.stringify */
  function Text(v: Json): string
    decreases v
  {
    match v
    case Null => "null"
    case Bool(b) => if b then "true" else "false"
    case Num(text) => text
    case Str(s) => Quoted(s)
    case Arr(items) => ['['] + ItemsText(items)
    case Obj(members) => ['{'] + MembersText(members)
  }

  /** The items of an array up to and including its closing bracket. */
  function ItemsText(items: seq<Json>): string
    decreases items
  {
    if items == [] then [']']
    else if |items| == 1 then Text(items[0]) + [']']
    else Text(items[0]) + [','] + ItemsText(items[1..])
  }

  function MembersText(members: seq<Member>): string
    decreases members
  {
    if members == [] then ['}']
    else
      var head := Quoted(members[0].key) + [':'] + Text(members[0].value);
      if |members| == 1 then head + ['}'] else head + [','] + MembersText(members[1..])
  }

  /** recordsEqual */
  predicate RecordsEqual(a: Json, b: Json) {
    Text(Canonical(a)) == Text(Canonical(b))
  }

  // ---------------------------------------------------------------- the text determines the value

  /** What may follow a complete value. */
  predicate Follows(x: string) {
    x == [] || x[0] == ',' || x[0] == ']' || x[0] == '}'
  }

  lemma EscapeIsPrefixFree(c: char, d: char, x: string, y: string)
    requires Escape(c) + x == Escape(d) + y
    ensures c == d && x == y
  {
    var s := Escape(c) + x;
    assert s[0] == Escape(c)[0] == Escape(d)[0];
    if Escape(c)[0] == '\\' {
      assert s[1] == Escape(c)[1] == Escape(d)[1];
      if Escape(c)[1] == 'u' {
        assert s[4] == Escape(c)[4] == Escape(d)[4];
        assert s[5] == Escape(c)[5] == Escape(d)[5];
        HexIsInjective(c as int / 16, d as int / 16);
        HexIsInjective(c as int % 16, d as int % 16);
        assert c as int == d as int;
      }
    }
    assert x == s[|Escape(c)|..] && y == s[|Escape(d)|..];
  }

  lemma HexIsInjective(m: int, n: int)
    requires 0 <= m < 16 && 0 <= n < 16 && HexDigit(m) == HexDigit(n)
    ensures m == n
  {
  }

  lemma {:induction false} QuotedTailIsPrefixFree(s: string, t: string, x: string, y: string)
    requires QuotedTail(s) + x == QuotedTail(t) + y
    ensures s == t && x == y
    decreases |s|
  {
    hide Escape;
    QuotedTailSplit(s, x);
    QuotedTailSplit(t, y);
    var all := QuotedTail(s) + x;
    assert s != [] ==> all[0] == Escape(s[0])[0];
    assert t != [] ==> all[0] == Escape(t[0])[0];
    if s == [] || t == [] {
      assert all[0] == '"';
      DropFirst('"', x, y);
    } else {
      EscapeIsPrefixFree(s[0], t[0], QuotedTail(s[1..]) + x, QuotedTail(t[1..]) + y);
      QuotedTailIsPrefixFree(s[1..], t[1..], x, y);
      assert s == [s[0]] + s[1..] && t == [t[0]] + t[1..];
    }
  }

  lemma QuotedTailSplit(s: string, x: string)
    ensures QuotedTail(s) + x == if s == [] then ['"'] + x else Escape(s[0]) + (QuotedTail(s[1..]) + x)
  {
    hide Escape;
    if s != [] { Regroup(Escape(s[0]), QuotedTail(s[1..]), x); }
  }

  lemma QuotedIsPrefixFree(s: string, t: string, x: string, y: string)
    requires Quoted(s) + x == Quoted(t) + y
    ensures s == t && x == y
  {
    hide QuotedTail;
    Regroup(['"'], QuotedTail(s), x);
    Regroup(['"'], QuotedTail(t), y);
    DropFirst('"', QuotedTail(s) + x, QuotedTail(t) + y);
    QuotedTailIsPrefixFree(s, t, x, y);
  }

  lemma NumberReachesEnd(s: string, t: string, x: string, y: string)
    requires forall i :: 0 <= i < |t| ==> NumberChar(t[i])
    requires Follows(x) && s + x == t + y
    ensures |t| <= |s|
  {
    assert |s| < |t| ==> (t + y)[|s|] == t[|s|];
    assert |s| < |s + x| ==> (s + x)[|s|] == x[0];
  }

  lemma DropFirst(c: char, s: string, t: string)
    requires [c] + s == [c] + t
    ensures s == t
  {
    assert s == ([c] + s)[1..] && t == ([c] + t)[1..];
  }

  /** Number texts end where a non-number character begins. */
  lemma {:induction false} NumberIsPrefixFree(s: string, t: string, x: string, y: string)
    requires forall i :: 0 <= i < |s| ==> NumberChar(s[i])
    requires forall i :: 0 <= i < |t| ==> NumberChar(t[i])
    requires Follows(x) && Follows(y) && s + x == t + y
    ensures s == t && x == y
  {
    var all := s + x;
    NumberReachesEnd(s, t, x, y);
    NumberReachesEnd(t, s, y, x);
    assert s == all[..|s|] && t == all[..|t|] && x == all[|s|..] && y == all[|t|..];
  }

  /** The first character tells the kinds of value apart. */
  function Kind(c: char): int {
    if c == 'n' then 0 else if c == 't' then 1 else if c == 'f' then 2 else if c == '"' then 4
    else if c == '[' then 5 else if c == '{' then 6 else if NumberChar(c) then 3 else 7
  }

  function KindOf(v: Json): int {
    match v
    case Null => 0
    case Bool(b) => if b then 1 else 2
    case Num(_) => 3
    case Str(_) => 4
    case Arr(_) => 5
    case Obj(_) => 6
  }

  lemma TextStarts(v: Json)
    requires WellFormed(v)
    ensures Text(v) != [] && Kind(Text(v)[0]) == KindOf(v) && Text(v)[0] != ']'
  {
  }

  lemma {:induction false} TextIsPrefixFree(a: Json, b: Json, x: string, y: string)
    requires WellFormed(a) && WellFormed(b) && Follows(x) && Follows(y)
    requires Text(a) + x == Text(b) + y
    ensures a == b && x == y
    decreases a
  {
    hide ItemsText, MembersText, QuotedTail, Quoted;
    TextStarts(a);
    TextStarts(b);
    assert (Text(a) + x)[0] == Text(a)[0] && (Text(b) + y)[0] == Text(b)[0];
    match a {
      case Num(s) => NumberIsPrefixFree(s, b.text, x, y);
      case Str(s) => QuotedIsPrefixFree(s, b.s, x, y);
      case Arr(items) =>
        assert Text(a) + x == ['['] + (ItemsText(items) + x) && Text(b) + y == ['['] + (ItemsText(b.items) + y);
        DropFirst('[', ItemsText(items) + x, ItemsText(b.items) + y);
        ItemsArePrefixFree(items, b.items, x, y);
      case Obj(members) =>
        assert Text(a) + x == ['{'] + (MembersText(members) + x) && Text(b) + y == ['{'] + (MembersText(b.members) + y);
        DropFirst('{', MembersText(members) + x, MembersText(b.members) + y);
        MembersArePrefixFree(members, b.members, x, y);
      case _ =>
        assert Text(a) == Text(b);
        assert x == (Text(a) + x)[|Text(a)|..] && y == (Text(b) + y)[|Text(b)|..];
    }
  }

  /** What follows the first of some array items. */
  function AfterItem(items: seq<Json>, x: string): string
    requires items != []
  {
    if |items| == 1 then [']'] + x else [','] + (ItemsText(items[1..]) + x)
  }

  lemma ItemsSplit(items: seq<Json>, x: string)
    ensures ItemsText(items) + x == if items == [] then [']'] + x else Text(items[0]) + AfterItem(items, x)
  {
    hide Text;
    if |items| > 1 {
      RegroupFour(Text(items[0]), [','], ItemsText(items[1..]), x);
    } else if |items| == 1 {
      Regroup(Text(items[0]), [']'], x);
    }
  }

  lemma StartsAlike(c: char, head: string, rest: string, x: string)
    requires head != [] && [c] + x == head + rest
    ensures head[0] == c
  {
    assert (head + rest)[0] == head[0];
  }

  lemma EmptyItemsDiffer(q: seq<Json>, x: string, y: string)
    requires forall i :: 0 <= i < |q| ==> WellFormed(q[i])
    requires [']'] + x == ItemsText(q) + y
    ensures q == []
  {
    hide Text, WellFormed, ItemsText;
    ItemsSplit(q, y);
    if q != [] {
      TextStarts(q[0]);
      StartsAlike(']', Text(q[0]), AfterItem(q, y), x);
    }
  }

  lemma {:induction false} ItemsArePrefixFree(p: seq<Json>, q: seq<Json>, x: string, y: string)
    requires forall i :: 0 <= i < |p| ==> WellFormed(p[i])
    requires forall i :: 0 <= i < |q| ==> WellFormed(q[i])
    requires ItemsText(p) + x == ItemsText(q) + y
    ensures p == q && x == y
    decreases p
  {
    hide Text, ItemsText, WellFormed;
    ItemsSplit(p, x);
    ItemsSplit(q, y);
    if p == [] {
      EmptyItemsDiffer(q, x, y);
      DropFirst(']', x, y);
    } else if q == [] {
      EmptyItemsDiffer(p, y, x);
      assert false;
    } else {
      TextIsPrefixFree(p[0], q[0], AfterItem(p, x), AfterItem(q, y));
      assert AfterItem(p, x)[0] == AfterItem(q, y)[0];
      assert AfterItem(p, x)[1..] == AfterItem(q, y)[1..];
      if |p| > 1 {
        ItemsArePrefixFree(p[1..], q[1..], x, y);
        assert p == [p[0]] + p[1..] && q == [q[0]] + q[1..];
      }
    }
  }

  function AfterMember(members: seq<Member>, x: string): string
    requires members != []
  {
    if |members| == 1 then ['}'] + x else [','] + (MembersText(members[1..]) + x)
  }

  lemma MembersSplit(members: seq<Member>, x: string)
    requires members != []
    ensures MembersText(members) + x
        == Quoted(members[0].key) + ([':'] + (Text(members[0].value) + AfterMember(members, x)))
  {
    hide Text, Quoted;
    var key, value := Quoted(members[0].key), Text(members[0].value);
    var head := key + [':'] + value;
    if |members| > 1 {
      RegroupFour(head, [','], MembersText(members[1..]), x);
    } else {
      Regroup(head, ['}'], x);
    }
    RegroupFour(key, [':'], value, AfterMember(members, x));
  }

  lemma EmptyMembersDiffer(q: seq<Member>, x: string, y: string)
    requires ['}'] + x == MembersText(q) + y
    ensures q == []
  {
    if q != [] {
      MembersSplit(q, y);
      hide MembersText, QuotedTail;
      StartsAlike('}', Quoted(q[0].key), [':'] + (Text(q[0].value) + AfterMember(q, y)), x);
    }
  }

  /** The text after the first member tells whether there are more. */
  lemma AfterMembersAlike(p: seq<Member>, q: seq<Member>, x: string, y: string)
    requires p != [] && q != [] && AfterMember(p, x) == AfterMember(q, y)
    ensures |p| == 1 <==> |q| == 1
    ensures |p| == 1 ==> x == y
    ensures |p| > 1 ==> MembersText(p[1..]) + x == MembersText(q[1..]) + y
  {
    hide MembersText;
    assert AfterMember(p, x)[0] == AfterMember(q, y)[0];
    assert AfterMember(p, x)[1..] == AfterMember(q, y)[1..];
  }

  lemma {:induction false} MembersArePrefixFree(p: seq<Member>, q: seq<Member>, x: string, y: string)
    requires forall i :: 0 <= i < |p| ==> WellFormed(p[i].value)
    requires forall i :: 0 <= i < |q| ==> WellFormed(q[i].value)
    requires MembersText(p) + x == MembersText(q) + y
    ensures p == q && x == y
    decreases p
  {
    if p == [] {
      EmptyMembersDiffer(q, x, y);
      DropFirst('}', x, y);
    } else if q == [] {
      EmptyMembersDiffer(p, y, x);
      assert false;
    } else {
      hide Text, MembersText, WellFormed, Quoted, AfterMember;
      MembersSplit(p, x);
      MembersSplit(q, y);
      var restP, restQ := Text(p[0].value) + AfterMember(p, x), Text(q[0].value) + AfterMember(q, y);
      QuotedIsPrefixFree(p[0].key, q[0].key, [':'] + restP, [':'] + restQ);
      DropFirst(':', restP, restQ);
      AfterMemberFollows(p, x);
      AfterMemberFollows(q, y);
      TextIsPrefixFree(p[0].value, q[0].value, AfterMember(p, x), AfterMember(q, y));
      AfterMembersAlike(p, q, x, y);
      if |p| > 1 {
        MembersArePrefixFree(p[1..], q[1..], x, y);
        assert p == [p[0]] + p[1..] && q == [q[0]] + q[1..];
      } else {
        assert p == [p[0]] && q == [q[0]];
      }
    }
  }

  lemma AfterMemberFollows(p: seq<Member>, x: string)
    requires p != []
    ensures Follows(AfterMember(p, x))
  {
  }

  lemma {:induction false} CanonicalIsWellFormed(v: Json)
    requires WellFormed(v)
    ensures WellFormed(Canonical(v))
    decreases v
  {
    match v {
      case Arr(items) =>
        forall i | 0 <= i < |items| ensures WellFormed(Canonical(items[i])) { CanonicalIsWellFormed(items[i]); }
      case Obj(members) =>
        forall i | 0 <= i < |members|
            ensures WellFormed(Canonical(members[i].value)) { CanonicalIsWellFormed(members[i].value); }
        var ms := CanonicalMembers(v);
        SortSorts(ms);
        SortedIsDistinct(Sort(ms));
        forall i | 0 <= i < |Sort(ms)| ensures WellFormed(Sort(ms)[i].value) {
          assert Sort(ms)[i] in ms;
          var j :| 0 <= j < |ms| && ms[j] == Sort(ms)[i];
        }
      case _ =>
    }
  }

  lemma SortedIsDistinct(ms: seq<Member>)
    requires Sorted(ms)
    ensures DistinctKeys(ms)
  {
    forall i, j | 0 <= i < j < |ms| ensures ms[i].key != ms[j].key {
      BeforeIsStrictOrder(ms[i].key, ms[j].key, ms[i].key);
    }
  }

  /** recordsEqual holds exactly when two JSON values are equal up to member order at every depth. */
  lemma RecordsEqualIffSame(a: Json, b: Json)
    requires WellFormed(a) && WellFormed(b)
    ensures RecordsEqual(a, b) <==> Same(a, b)
  {
    CanonicalIffSame(a, b);
    CanonicalIsWellFormed(a);
    CanonicalIsWellFormed(b);
    if RecordsEqual(a, b) {
      assert Text(Canonical(a)) + "" == Text(Canonical(b)) + "";
      TextIsPrefixFree(Canonical(a), Canonical(b), "", "");
    }
  }
}
