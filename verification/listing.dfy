/** The paged listing of file records and its opaque cursors. */
module FileListing {
  import opened Wrappers

  // ---------- Cursors ----------

  /** The URL-safe alphabet of section 5 of RFC 4648. */
  function CharOf(n: int): char
    requires 0 <= n < 64
  {
    if n < 26 then 'A' + n as char
    else if n < 52 then 'a' + (n - 26) as char
    else if n < 62 then '0' + (n - 52) as char
    else if n == 62 then '-' else '_'
  }

  function SextetOf(c: char): (n: Option<int>)
    ensures n.Some? ==> 0 <= n.value < 64 && CharOf(n.value) == c
    ensures n.None? ==> forall m | 0 <= m < 64 :: CharOf(m) != c
  {
    if 'A' <= c <= 'Z' then Some((c - 'A') as int)
    else if 'a' <= c <= 'z' then Some((c - 'a') as int + 26)
    else if '0' <= c <= '9' then Some((c - '0') as int + 52)
    else if c == '-' then Some(62) else if c == '_' then Some(63) else None
  }

  /** The alphabet in order: capital letters, small letters, digits, minus and underscore. */
  lemma CharOfIsTheAlphabet()
    ensures CharOf(0) == 'A' && CharOf(26) == 'a' && CharOf(52) == '0' && CharOf(62) == '-' && CharOf(63) == '_'
    ensures forall n | 0 <= n < 61 && n != 25 && n != 51 :: CharOf(n + 1) as int == CharOf(n) as int + 1
  {
  }

  /** One to three bytes as two to four characters and padding. */
  function EncodeGroup(g: seq<Byte>): string
    requires 1 <= |g| <= 3
  {
    var b1 := if |g| > 1 then g[1] else 0;
    var b2 := if |g| > 2 then g[2] else 0;
    var c := [CharOf(g[0] / 4), CharOf(g[0] % 4 * 16 + b1 / 16)];
    if |g| == 1 then c + "=="
    else if |g| == 2 then c + [CharOf(b1 % 16 * 4)] + "="
    else c + [CharOf(b1 % 16 * 4 + b2 / 64), CharOf(b2 % 64)]
  }

  function DecodeGroup(c: string): Option<seq<Byte>>
    requires |c| == 4
  {
    match (SextetOf(c[0]), SextetOf(c[1]), SextetOf(c[2]), SextetOf(c[3]))
    case (Some(s0), Some(s1), Some(s2), Some(s3)) =>
      Some([s0 * 4 + s1 / 16, s1 % 16 * 16 + s2 / 4, s2 % 4 * 64 + s3])
    case (Some(s0), Some(s1), Some(s2), None) =>
      if c[3] == '=' then Some([s0 * 4 + s1 / 16, s1 % 16 * 16 + s2 / 4]) else None
    case (Some(s0), Some(s1), None, None) =>
      if c[2] == '=' && c[3] == '=' then Some([s0 * 4 + s1 / 16]) else None
    case _ => None
  }

  function Encode(bytes: seq<Byte>): string {
    if bytes == [] then ""
    else if |bytes| <= 3 then EncodeGroup(bytes)
    else EncodeGroup(bytes[..3]) + Encode(bytes[3..])
  }

  function Decode(c: string): Option<seq<Byte>> {
    if c == "" then Some([])
    else if |c| < 4 then None
    else
      match (DecodeGroup(c[..4]), Decode(c[4..]))
      case (Some(a), Some(b)) => if |a| < 3 && |c| > 4 then None else Some(a + b)
      case _ => None
  }

  /** `rstrip("=")`. */
  function Strip(c: string): string {
    if c != "" && c[|c| - 1] == '=' then Strip(c[..|c| - 1]) else c
  }

  /** `cursor + "=" * (-len(cursor) % 4)`. */
  function Pad(c: string): string {
    c + seq((4 - |c| % 4) % 4, _ => '=')
  }

  lemma SextetRoundTrip(n: int)
    requires 0 <= n < 64
    ensures SextetOf(CharOf(n)) == Some(n) && CharOf(n) != '='
  {
  }

  lemma GroupRoundTrip(g: seq<Byte>)
    requires 1 <= |g| <= 3
    ensures |EncodeGroup(g)| == 4 && DecodeGroup(EncodeGroup(g)) == Some(g)
    ensures EncodeGroup(g)[0] != '=' && EncodeGroup(g)[1] != '='
    ensures |g| >= 2 ==> EncodeGroup(g)[2] != '='
    ensures |g| == 3 ==> EncodeGroup(g)[3] != '='
  {
    hide SextetOf, CharOf;
    var b1 := if |g| > 1 then g[1] else 0;
    var b2 := if |g| > 2 then g[2] else 0;
    SextetRoundTrip(g[0] / 4);
    SextetRoundTrip(g[0] % 4 * 16 + b1 / 16);
    SextetRoundTrip(b1 % 16 * 4 + b2 / 64);
    SextetRoundTrip(b2 % 64);
    PaddingIsForeign();
    if |g| == 1 {
      assert g == [g[0]];
    } else if |g| == 2 {
      assert g == [g[0], g[1]];
    } else {
      assert g == [g[0], g[1], g[2]];
    }
  }

  lemma DigitsOf(d0: int, d1: int, d2: int, d3: int)
    requires 0 <= d0 < 64 && 0 <= d1 < 64 && 0 <= d2 < 64 && 0 <= d3 < 64
    ensures var n := d0 * 262144 + d1 * 4096 + d2 * 64 + d3;
            n / 262144 == d0 && n / 4096 == d0 * 64 + d1 && n / 64 == d0 * 4096 + d1 * 64 + d2 && n % 64 == d3
  {
  }

  lemma Digits(a: int, b: int, c: int)
    requires 0 <= a < 256 && 0 <= b < 256 && 0 <= c < 256
    ensures var n := a * 65536 + b * 256 + c;
            && n / 262144 == a / 4 && n / 4096 % 64 == a % 4 * 16 + b / 16
            && n / 64 % 64 == b % 16 * 4 + c / 64 && n % 64 == c % 64
  {
    DigitsOf(a / 4, a % 4 * 16 + b / 16, b % 16 * 4 + c / 64, c % 64);
  }

  /** A group is the big-endian number of its bytes, filled up with zero bits, in digits of six bits each
      (section 4 of RFC 4648). */
  lemma GroupIsItsNumber(g: seq<Byte>)
    requires 1 <= |g| <= 3
    ensures var b: int := if |g| > 1 then g[1] else 0;
            var c: int := if |g| > 2 then g[2] else 0;
            var n: int := g[0] as int * 65536 + b * 256 + c;
            var digits := [CharOf(n / 262144), CharOf(n / 4096 % 64), CharOf(n / 64 % 64), CharOf(n % 64)];
            EncodeGroup(g) == digits[..|g| + 1] + if |g| == 1 then "==" else if |g| == 2 then "=" else ""
  {
    hide CharOf;
    var b: int := if |g| > 1 then g[1] else 0;
    var c: int := if |g| > 2 then g[2] else 0;
    Digits(g[0], b, c);
  }

  /** The text is that of its groups of three bytes, of which only the last can be shorter. */
  lemma EncodeByGroups(bytes: seq<Byte>, more: seq<Byte>)
    requires |bytes| == 3
    ensures Encode([]) == "" && Encode(bytes + more) == EncodeGroup(bytes) + Encode(more)
  {
    assert (bytes + more)[..3] == bytes && (bytes + more)[3..] == more;
    assert more == [] ==> bytes + more == bytes && EncodeGroup(bytes) + "" == EncodeGroup(bytes);
  }

  lemma PaddingIsForeign()
    ensures SextetOf('=').None?
  {
  }

  /** Only groups of digits, filled up at the end with padding, are decoded. */
  lemma GroupsAccepted(c: string)
    requires |c| == 4
    ensures DecodeGroup(c).Some? <==>
              && SextetOf(c[0]).Some? && SextetOf(c[1]).Some?
              && if SextetOf(c[2]).Some? then SextetOf(c[3]).Some? || c[3] == '=' else c[2] == '=' && c[3] == '='
  {
    PaddingIsForeign();
  }

  lemma {:induction false} EncodeRoundTrip(bytes: seq<Byte>)
    ensures |Encode(bytes)| % 4 == 0 && Decode(Encode(bytes)) == Some(bytes)
  {
    hide EncodeGroup, DecodeGroup;
    if bytes == [] {
    } else if |bytes| <= 3 {
      GroupRoundTrip(bytes);
      var c := Encode(bytes);
      assert c[..4] == c && c[4..] == "";
      assert bytes + [] == bytes;
    } else {
      GroupRoundTrip(bytes[..3]);
      EncodeRoundTrip(bytes[3..]);
      DecodeStep(EncodeGroup(bytes[..3]), Encode(bytes[3..]), bytes[..3], bytes[3..]);
      assert bytes[..3] + bytes[3..] == bytes;
      hide Decode;
    }
  }

  lemma DecodeStep(c: string, rest: string, a: seq<Byte>, b: seq<Byte>)
    requires |c| == 4 && |a| == 3 && DecodeGroup(c) == Some(a) && Decode(rest) == Some(b)
    ensures Decode(c + rest) == Some(a + b)
  {
    hide DecodeGroup;
    assert (c + rest)[..4] == c && (c + rest)[4..] == rest;
  }

  /** Only the last two characters can be padding, and padding restores what stripping removed. */
  lemma {:induction false} PadAfterStrip(c: string)
    requires |c| % 4 == 0
    requires c != "" ==> c[|c| - 3] != '=' && (c[|c| - 2] == '=' ==> c[|c| - 1] == '=')
    ensures Pad(Strip(c)) == c
  {
    if c != "" && c[|c| - 1] == '=' {
      var c1 := c[..|c| - 1];
      if c1[|c1| - 1] == '=' {
        var c2 := c1[..|c1| - 1];
        assert Strip(c2) == c2 && Strip(c1) == c2;
        assert c == c2 + "==";
      } else {
        assert Strip(c1) == c1;
        assert c == c1 + "=";
      }
    }
  }

  lemma {:induction false} EncodeEnds(bytes: seq<Byte>)
    requires bytes != []
    ensures var c := Encode(bytes);
            |c| >= 4 && c[|c| - 3] != '=' && (c[|c| - 2] == '=' ==> c[|c| - 1] == '=')
  {
    if |bytes| <= 3 {
      GroupRoundTrip(bytes);
    } else {
      GroupRoundTrip(bytes[..3]);
      EncodeEnds(bytes[3..]);
    }
  }

  /** Decoding an encoded cursor whose padding has been stripped gives back its bytes. */
  lemma StrippedRoundTrip(bytes: seq<Byte>)
    ensures Decode(Pad(Strip(Encode(bytes)))) == Some(bytes)
    ensures bytes != [] ==> Strip(Encode(bytes)) != ""
  {
    EncodeRoundTrip(bytes);
    if bytes != [] {
      EncodeEnds(bytes);
    }
    PadAfterStrip(Encode(bytes));
  }

  /** The sort key of a row; only the order of file ids matters, so they are numbers here. */
  datatype Key = Key(createdAt: int, id: int)

  predicate Below(a: Key, b: Key) {
    a.createdAt < b.createdAt || (a.createdAt == b.createdAt && a.id < b.id)
  }

  /** The serialization of a key, which is JSON in the registry. */
  datatype Serializer = Serializer(dump: Key -> seq<Byte>, load: seq<Byte> -> Option<Key>)
  {
    ghost predicate Faithful() {
      forall k :: dump(k) != [] && load(dump(k)) == Some(k)
    }
  }

  function EncodeCursor(s: Serializer, k: Key): string {
    Strip(Encode(s.dump(k)))
  }

  function DecodeCursor(s: Serializer, cursor: string): Option<Key> {
    match Decode(Pad(cursor))
    case None => None
    case Some(bytes) => s.load(bytes)
  }

  lemma CursorRoundTrip(s: Serializer, k: Key)
    requires s.Faithful()
    ensures EncodeCursor(s, k) != "" && DecodeCursor(s, EncodeCursor(s, k)) == Some(k)
  {
    StrippedRoundTrip(s.dump(k));
  }

  // ---------- Pages ----------

  datatype Row = Row(key: Key, projectId: string, registered: bool, sha256: Option<string>)

  datatype Filter = Filter(projectId: Option<string>, registered: Option<bool>, sha256: Option<string>)

  /** A filter that is absent or empty lets every row through. */
  predicate Matches(f: Filter, row: Row) {
    && (f.projectId.Some? && f.projectId.value != "" ==> row.projectId == f.projectId.value)
    && (f.registered.Some? ==> row.registered == f.registered.value)
    && (f.sha256.Some? && f.sha256.value != "" ==> row.sha256 == f.sha256)
  }

  predicate Selected(f: Filter, after: Option<Key>, row: Row) {
    Matches(f, row) && (after.Some? ==> Below(row.key, after.value))
  }

  /** The `where` clause. */
  function Where(rows: seq<Row>, f: Filter, after: Option<Key>): seq<Row> {
    if rows == [] then [] else
    (if Selected(f, after, rows[0]) then [rows[0]] else []) + Where(rows[1..], f, after)
  }

  /** The `order by` clause: insertion into a descending sequence. */
  function Insert(sorted: seq<Row>, row: Row): seq<Row> {
    if sorted == [] || Below(sorted[0].key, row.key) then [row] + sorted
    else [sorted[0]] + Insert(sorted[1..], row)
  }

  function Ordered(rows: seq<Row>): seq<Row> {
    if rows == [] then [] else Insert(Ordered(rows[1..]), rows[0])
  }

  function Select(table: seq<Row>, f: Filter, after: Option<Key>): seq<Row> {
    Ordered(Where(table, f, after))
  }

  datatype Page = Page(items: seq<Row>, nextCursor: Option<string>)

  function Take(rows: seq<Row>, n: nat): seq<Row> {
    if |rows| <= n then rows else rows[..n]
  }

  /** One page: `limit + 1` rows are read to see whether there are more. */
  function PageAfter(s: Serializer, table: seq<Row>, f: Filter, limit: nat, after: Option<Key>): Page {
    var rows := Take(Select(table, f, after), limit + 1);
    var items := Take(rows, limit);
    Page(items, if |rows| > limit && items != [] then Some(EncodeCursor(s, items[|items| - 1].key)) else None)
  }

  /** `list_files`; `None` is the error of an invalid cursor. */
  function ListFiles(s: Serializer, table: seq<Row>, f: Filter, limit: nat, cursor: Option<string>): Option<Page> {
    if cursor.None? || cursor.value == "" then Some(PageAfter(s, table, f, limit, None))
    else
      match DecodeCursor(s, cursor.value)
      case None => None
      case Some(key) => Some(PageAfter(s, table, f, limit, Some(key)))
  }

  /** Primary keys differ, so sort keys do. */
  ghost predicate DistinctKeys(rows: seq<Row>) {
    forall i, j | 0 <= i < j < |rows| :: rows[i].key != rows[j].key
  }

  ghost predicate Descending(rows: seq<Row>) {
    forall i, j | 0 <= i < j < |rows| :: Below(rows[j].key, rows[i].key)
  }

  lemma {:induction false} WhereMembers(rows: seq<Row>, f: Filter, after: Option<Key>)
    ensures forall row :: row in Where(rows, f, after) <==> row in rows && Selected(f, after, row)
  {
    if rows != [] {
      WhereMembers(rows[1..], f, after);
    }
  }

  lemma {:induction false} WhereDistinct(rows: seq<Row>, f: Filter, after: Option<Key>)
    requires DistinctKeys(rows)
    ensures DistinctKeys(Where(rows, f, after))
  {
    if rows != [] {
      WhereDistinct(rows[1..], f, after);
      WhereMembers(rows[1..], f, after);
      var rest := Where(rows[1..], f, after);
      forall j | 0 <= j < |rest| ensures rest[j].key != rows[0].key {
        assert rest[j] in rows[1..];
      }
    }
  }

  lemma {:induction false} InsertDescending(sorted: seq<Row>, row: Row)
    requires Descending(sorted) && forall x | x in sorted :: x.key != row.key
    ensures Descending(Insert(sorted, row))
    ensures forall x :: x in Insert(sorted, row) <==> x == row || x in sorted
    ensures |Insert(sorted, row)| == |sorted| + 1
  {
    if sorted != [] && !Below(sorted[0].key, row.key) {
      assert sorted == [sorted[0]] + sorted[1..];
      InsertDescending(sorted[1..], row);
    } else {
      assert sorted != [] ==> forall x | x in sorted :: Below(x.key, row.key);
    }
  }

  lemma {:induction false} OrderedDescending(rows: seq<Row>)
    requires DistinctKeys(rows)
    ensures Descending(Ordered(rows)) && |Ordered(rows)| == |rows|
    ensures forall x :: x in Ordered(rows) <==> x in rows
  {
    if rows != [] {
      OrderedDescending(rows[1..]);
      InsertDescending(Ordered(rows[1..]), rows[0]);
    }
  }

  /** A selection holds each selected row once, in strictly descending order. */
  lemma SelectSorted(table: seq<Row>, f: Filter, after: Option<Key>)
    requires DistinctKeys(table)
    ensures Descending(Select(table, f, after))
    ensures forall row :: row in Select(table, f, after) <==> row in table && Selected(f, after, row)
    ensures forall i, j | 0 <= i < j < |Select(table, f, after)| :: Newer(Select(table, f, after)[i], Select(table, f, after)[j])
  {
    WhereMembers(table, f, after);
    WhereDistinct(table, f, after);
    OrderedDescending(Where(table, f, after));
  }

  /** Strictly descending sequences with the same members are equal. */
  lemma {:induction false} DescendingUnique(a: seq<Row>, b: seq<Row>)
    requires Descending(a) && Descending(b) && forall x :: x in a <==> x in b
    ensures a == b
  {
    assert a != [] ==> a[0] in b;
    assert b != [] ==> b[0] in a;
    if a != [] {
      TailMembers(a, b);
      TailMembers(b, a);
      DescendingUnique(a[1..], b[1..]);
    }
  }

  lemma TailMembers(a: seq<Row>, b: seq<Row>)
    requires a != [] && b != [] && Descending(a) && Descending(b)
    requires forall x :: x in a <==> x in b
    ensures a[0] == b[0] && forall x | x in a[1..] :: x in b[1..]
  {
    assert a[0] in b && b[0] in a;
    forall x | x in a[1..] ensures x in b[1..] {
      var i :| 0 <= i < |a[1..]| && a[1..][i] == x;
      assert a[i + 1] == x && Below(x.key, a[0].key);
      assert x in b;
    }
  }

  /** What a cursor selects is what comes after its row. */
  lemma SelectAfter(table: seq<Row>, f: Filter, after: Option<Key>, k: nat)
    requires DistinctKeys(table) && k < |Select(table, f, after)|
    ensures var all := Select(table, f, after);
            Select(table, f, Some(all[k].key)) == all[k + 1..]
  {
    var all := Select(table, f, after);
    var rest := Select(table, f, Some(all[k].key));
    SelectSorted(table, f, after);
    SelectSorted(table, f, Some(all[k].key));
    forall x | x in rest ensures x in all[k + 1..] {
      assert all[k] in all;
      AfterIsBelow(all, after, k, x);
    }
    forall x | x in all[k + 1..] ensures x in rest {
      var i :| 0 <= i < |all[k + 1..]| && all[k + 1..][i] == x;
      assert all[k + 1 + i] == x && x in all && Below(x.key, all[k].key);
    }
    DescendingUnique(rest, all[k + 1..]);
  }

  lemma AfterIsBelow(all: seq<Row>, after: Option<Key>, k: nat, x: Row)
    requires Descending(all) && k < |all| && Below(x.key, all[k].key)
    requires after.Some? ==> Below(all[k].key, after.value)
    requires (after.Some? ==> Below(x.key, after.value)) ==> x in all
    ensures x in all[k + 1..]
  {
    var i :| 0 <= i < |all| && all[i] == x;
    assert i > k;
    assert all[k + 1..][i - k - 1] == x;
  }

  /** Following `next_cursor` from a page on, until it is absent. */
  function Follow(s: Serializer, table: seq<Row>, f: Filter, limit: nat, cursor: Option<string>, bound: nat): seq<Page>
    decreases bound
  {
    match ListFiles(s, table, f, limit, cursor)
    case None => []
    case Some(page) =>
      [page] + if page.nextCursor.None? || bound == 0 then [] else Follow(s, table, f, limit, page.nextCursor, bound - 1)
  }

  function Items(pages: seq<Page>): seq<Row> {
    if pages == [] then [] else pages[0].items + Items(pages[1..])
  }

  /** A complete sequence of pages: cursors lead to its end, no page but the first is empty, and every
      page but the last is full. */
  ghost predicate WholeListing(pages: seq<Page>, limit: nat) {
    && pages != [] && pages[|pages| - 1].nextCursor.None?
    && (forall i | 0 <= i < |pages| :: |pages[i].items| <= limit)
    && (forall i | 0 <= i < |pages| - 1 :: pages[i].nextCursor.Some? && |pages[i].items| == limit)
    && (forall i | 1 <= i < |pages| :: pages[i].items != [])
  }

  lemma ListingEnds(page: Page, limit: nat)
    ensures page.nextCursor.None? && |page.items| <= limit ==> WholeListing([page], limit)
    ensures forall pages, n {:trigger WholeListing(pages, n)} | WholeListing(pages, n) :: pages != []
  {
  }

  lemma ListingGrows(page: Page, rest: seq<Page>, limit: nat)
    requires WholeListing(rest, limit) && rest[0].items != [] && page.nextCursor.Some? && |page.items| == limit
    ensures WholeListing([page] + rest, limit)
  {
  }

  lemma {:induction false} FollowFrom(s: Serializer, table: seq<Row>, f: Filter, limit: nat, cursor: Option<string>,
                                      after: Option<Key>, bound: nat)
    requires s.Faithful() && DistinctKeys(table) && limit >= 1
    requires if after.Some? then cursor == Some(EncodeCursor(s, after.value)) else cursor.None?
    requires |Select(table, f, after)| <= bound
    ensures var pages := Follow(s, table, f, limit, cursor, bound);
            && WholeListing(pages, limit) && Items(pages) == Select(table, f, after)
            && (pages[0].items == [] ==> Select(table, f, after) == [])
    decreases bound
  {
    hide Select, PageAfter, ListFiles, EncodeCursor, DistinctKeys, WholeListing;
    ListingEnds(PageAfter(s, table, f, limit, after), limit);
    var all := Select(table, f, after);
    var page := PageAfter(s, table, f, limit, after);
    PageOf(s, table, f, limit, cursor, after);
    if |all| > limit {
      var last := all[limit - 1];
      SelectAfter(table, f, after, limit - 1);
      FollowFrom(s, table, f, limit, page.nextCursor, Some(last.key), bound - 1);
      ListingGrows(page, Follow(s, table, f, limit, page.nextCursor, bound - 1), limit);
      assert all[..limit] + all[limit..] == all;
    } else {
      assert [page] + [] == [page] && page.items + [] == all;
    }
  }

  /** A page holds the first rows of what its cursor selects, and a cursor when there are more. */
  lemma PageOf(s: Serializer, table: seq<Row>, f: Filter, limit: nat, cursor: Option<string>, after: Option<Key>)
    requires s.Faithful() && limit >= 1
    requires if after.Some? then cursor == Some(EncodeCursor(s, after.value)) else cursor.None?
    ensures var all := Select(table, f, after);
            var page := PageAfter(s, table, f, limit, after);
            && ListFiles(s, table, f, limit, cursor) == Some(page)
            && page.items == Take(all, limit)
            && page.nextCursor == if |all| > limit then Some(EncodeCursor(s, all[limit - 1].key)) else None
  {
    hide Select, EncodeCursor, DecodeCursor;
    if after.Some? {
      CursorRoundTrip(s, after.value);
    }
  }

  /** Created later, or at the same instant with a greater id. */
  predicate Newer(a: Row, b: Row) {
    b.key.createdAt < a.key.createdAt || (b.key.createdAt == a.key.createdAt && b.key.id < a.key.id)
  }

  /** A cursor that cannot be read is an error, and an empty one is none. */
  lemma UnreadableCursor(s: Serializer, table: seq<Row>, f: Filter, limit: nat, cursor: string)
    ensures ListFiles(s, table, f, limit, Some(cursor)).None? <==>
              cursor != "" && (Decode(Pad(cursor)).None? || s.load(Decode(Pad(cursor)).value).None?)
    ensures ListFiles(s, table, f, limit, Some("")) == ListFiles(s, table, f, limit, None)
  {
  }

  /** Following the cursors on a fixed table ends, and gives every matching row once, newest first;
      no page but the first can be empty, and every page but the last is full. */
  lemma PagesAreTheWholeListing(s: Serializer, table: seq<Row>, f: Filter, limit: nat)
    requires s.Faithful() && DistinctKeys(table) && limit >= 1
    ensures var pages := Follow(s, table, f, limit, None, |table|);
            && WholeListing(pages, limit)
            && (forall i, j | 0 <= i < j < |Items(pages)| :: Newer(Items(pages)[i], Items(pages)[j]))
            && (forall row :: row in Items(pages) <==>
                  && row in table
                  && (f.projectId.Some? && f.projectId.value != "" ==> row.projectId == f.projectId.value)
                  && (f.registered.Some? ==> row.registered == f.registered.value)
                  && (f.sha256.Some? && f.sha256.value != "" ==> row.sha256.Some? && row.sha256.value == f.sha256.value))
  {
    WhereShorter(table, f, None);
    WhereDistinct(table, f, None);
    OrderedDescending(Where(table, f, None));
    SelectSorted(table, f, None);
    FollowFrom(s, table, f, limit, None, None, |table|);
  }

  lemma {:induction false} WhereShorter(rows: seq<Row>, f: Filter, after: Option<Key>)
    ensures |Where(rows, f, after)| <= |rows|
  {
    if rows != [] {
      WhereShorter(rows[1..], f, after);
    }
  }
}
