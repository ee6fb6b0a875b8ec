/** JSON pointers, as RFC 6901 sections 3 and 4 write them. */
module Pointer {
  import opened Wrappers
  import opened Json
  import opened Text

  /** `replace('~', "~0").replace('/', "~1")`, the server's way to write a key into a path. */
  function Escape(key: string): string {
    ReplaceChar(ReplaceChar(key, '~', "~0"), '/', "~1")
  }

  function ReplaceChar(s: string, c: char, into: string): string {
    if s == "" then "" else (if s[0] == c then into else [s[0]]) + ReplaceChar(s[1..], c, into)
  }

  /** `str::replace` for a two-character pattern: left to right, without overlaps. */
  function ReplacePair(s: string, a: char, b: char, into: string): string {
    if |s| >= 2 && s[0] == a && s[1] == b then into + ReplacePair(s[2..], a, b, into)
    else if s == "" then ""
    else [s[0]] + ReplacePair(s[1..], a, b, into)
  }

  function Unescape(segment: string): string {
    ReplacePair(ReplacePair(segment, '~', '1', "/"), '~', '0', "~")
  }

  function Tilde(key: string): string {
    ReplaceChar(key, '~', "~0")
  }

  lemma EscapeStep(key: string)
    requires key != ""
    ensures Escape(key) == (if key[0] == '~' then "~0" else if key[0] == '/' then "~1" else [key[0]]) + Escape(key[1..])
    ensures Tilde(key) == (if key[0] == '~' then "~0" else [key[0]]) + Tilde(key[1..])
  {
    var rest := Tilde(key[1..]);
    if key[0] == '~' {
      assert Tilde(key) == "~0" + rest;
      assert ("~0" + rest)[1..] == "0" + rest && ("0" + rest)[1..] == rest;
      assert ReplaceChar("0" + rest, '/', "~1") == "0" + ReplaceChar(rest, '/', "~1");
      assert "~" + ("0" + ReplaceChar(rest, '/', "~1")) == "~0" + ReplaceChar(rest, '/', "~1");
    } else {
      assert Tilde(key) == [key[0]] + rest && ([key[0]] + rest)[1..] == rest;
    }
  }

  /** Undoing `~1` leaves exactly the text with its tildes escaped. */
  lemma {:induction false} SlashesFirst(key: string)
    ensures ReplacePair(Escape(key), '~', '1', "/") == Tilde(key)
  {
    if key != "" {
      EscapeStep(key);
      SlashesFirst(key[1..]);
      var rest := Escape(key[1..]);
      if key[0] == '~' {
        assert ("~0" + rest)[1..] == "0" + rest && ("0" + rest)[1..] == rest;
        assert ReplacePair("0" + rest, '~', '1', "/") == "0" + Tilde(key[1..]);
      } else if key[0] == '/' {
        assert ("~1" + rest)[2..] == rest;
      } else {
        assert ([key[0]] + rest)[1..] == rest;
      }
    }
  }

  lemma {:induction false} TildesSecond(key: string)
    ensures ReplacePair(Tilde(key), '~', '0', "~") == key
  {
    if key != "" {
      EscapeStep(key);
      TildesSecond(key[1..]);
      var rest := Tilde(key[1..]);
      if key[0] == '~' { assert ("~0" + rest)[2..] == rest; } else { assert ([key[0]] + rest)[1..] == rest; }
    }
  }

  /** The client's unescaping inverts the server's escaping, for every key. */
  lemma UnescapeInvertsEscape(key: string)
    ensures Unescape(Escape(key)) == key
  {
    SlashesFirst(key);
    TildesSecond(key);
  }

  /** In the other order it does not: the key "~1" comes back as "/". */
  lemma TildesFirstWouldNot()
    ensures ReplacePair(ReplacePair(Escape("~1"), '~', '0', "~"), '~', '1', "/") == "/"
  {
    assert Tilde("~1") == "~01" by { assert ReplaceChar("1", '~', "~0") == "1"; }
    assert Escape("~1") == "~01" by {
      assert ReplaceChar("1", '/', "~1") == "1";
      assert ReplaceChar("01", '/', "~1") == "01";
    }
    assert ReplacePair("~01", '~', '0', "~") == "~1" by { assert ReplacePair("1", '~', '0', "~") == "1"; }
  }

  // ---------------------------------------------------------------- validate_pointer

  /** Bytes of a character in UTF-8. */
  function Utf8(c: char): nat {
    if c as int < 0x80 then 1 else if c as int < 0x800 then 2 else if c as int < 0x10000 then 3 else 4
  }

  function Bytes(s: string): nat {
    if s == "" then 0 else Utf8(s[0]) + Bytes(s[1..])
  }

  predicate Escaped(s: string) {
    forall i :: 0 <= i < |s| && s[i] == '~' ==> i + 1 < |s| && (s[i + 1] == '0' || s[i + 1] == '1')
  }

  predicate ValidPointer(p: string, maximum: nat) {
    Bytes(p) <= maximum && (p == "" || p[0] == '/') && Escaped(p)
  }

  datatype PointerError = RootOrLength | EscapeError

  /** Read characters one by one; a tilde takes the next one with it. */
  method ValidatePointer(p: string, maximum: nat) returns (r: Result<(), PointerError>)
    ensures r.Ok? <==> ValidPointer(p, maximum)
    ensures r == Err(RootOrLength) <==> Bytes(p) > maximum || (p != "" && p[0] != '/')
  {
    if Bytes(p) > maximum || (p != "" && p[0] != '/') { return Err(RootOrLength); }
    var at := 0;
    while at < |p|
      invariant at <= |p|
      invariant forall i :: 0 <= i < at && p[i] == '~' ==> i + 1 < |p| && (p[i + 1] == '0' || p[i + 1] == '1')
    {
      var c := p[at];
      at := at + 1;
      if c == '~' {
        if at == |p| || (p[at] != '0' && p[at] != '1') { return Err(EscapeError); }
        at := at + 1;
      }
    }
    return Ok(());
  }

  lemma {:induction false} EscapedKey(key: string)
    ensures Escaped(Escape(key)) && forall i :: 0 <= i < |Escape(key)| ==> Escape(key)[i] != '/'
  {
    if key != "" {
      EscapeStep(key);
      EscapedKey(key[1..]);
    }
  }

  function ChildPath(pointer: string, key: string): string {
    pointer + "/" + Escape(key)
  }

  /** The paths a scan hands out are well escaped whenever the pointer scanned was. */
  lemma ChildPathEscaped(pointer: string, key: string)
    requires Escaped(pointer) && (pointer == "" || pointer[0] == '/')
    ensures Escaped(ChildPath(pointer, key)) && ChildPath(pointer, key)[0] == '/'
  {
    EscapedKey(key);
    var p, e := ChildPath(pointer, key), Escape(key);
    forall i | 0 <= i < |p| && p[i] == '~' ensures i + 1 < |p| && (p[i + 1] == '0' || p[i + 1] == '1') {
      if i < |pointer| {
        assert p[i] == pointer[i] && p[i + 1] == pointer[i + 1];
      } else {
        assert p[i] == e[i - |pointer| - 1];
        assert p[i + 1] == e[i - |pointer|];
      }
    }
  }

  // ---------------------------------------------------------------- resolution

  function Index(token: string): Option<nat> {
    if token == "" || token[0] == '+' || (token[0] == '0' && |token| != 1) then None else Parse(token)
  }

  function Child(v: Json, token: string): Option<Json> {
    match v
    case Obj(members) => if token in members then Some(members[token]) else None
    case Arr(items) => if Index(token).Some? && Index(token).value < |items| then Some(items[Index(token).value]) else None
    case _ => None
  }

  lemma SplitShorter(p: string)
    ensures SplitLast(p, '/').Some? ==> |SplitLast(p, '/').value.0| < |p|
  {
  }

  /** `Value::pointer`, taking the last segment last. */
  function Resolve(v: Json, pointer: string): Option<Json>
    decreases |pointer|
  {
    if pointer == "" then Some(v)
    else
      SplitShorter(pointer);
      match SplitLast(pointer, '/')
      case None => None
      case Some((parent, last)) =>
        match Resolve(v, parent)
        case None => None
        case Some(inner) => Child(inner, Unescape(last))
  }

  function LastSegment(path: string): string {
    match SplitLast(path, '/')
    case None => path
    case Some((_, last)) => last
  }

  /** A child path leads to that child, and its last segment is that key again. */
  lemma ChildPathResolves(v: Json, pointer: string, key: string)
    ensures Unescape(LastSegment(ChildPath(pointer, key))) == key
    ensures Resolve(v, pointer).Some? ==> Resolve(v, ChildPath(pointer, key)) == Child(Resolve(v, pointer).value, key)
  {
    EscapedKey(key);
    SplitJoined(pointer, '/', Escape(key));
    UnescapeInvertsEscape(key);
  }
}

/** The server's side of reading a document in bounded pieces. */
module DocumentServer {
  import opened Wrappers
  import opened Json
  import opened Text
  import opened Pointer

  const POINTER_LIMIT := 4096
  const DEFAULT_LIMIT := 100
  const LARGEST_LIMIT := 4000

  datatype Request = Request(pointer: string, expected: Option<string>, offset: nat, limit: nat, scan: bool)

  /** `entries` holds the child paths of a scan. */
  datatype Reply = Reply(digest: string, value: Json, scan: bool, entries: seq<string>, next: Option<nat>)

  datatype Failure =
    | BadPointer | BadLimit | Changed | Missing | BadOffset | BadScan | ValueTooLarge | Unreachable | NotASlice

  /** Key order of objects, document digests, and the two size limits. */
  datatype Server = Server(keys: Json -> seq<string>, digest: Json -> string, large: Json -> bool, fits: Reply -> bool)

  ghost predicate Enumerates(keys: Json -> seq<string>) {
    forall v: Json :: v.Obj? ==>
      && (forall i, j :: 0 <= i < j < |keys(v)| ==> keys(v)[i] != keys(v)[j])
      && (forall k :: k in keys(v) <==> k in v.members)
  }

  /** The names a scan lists: the keys of an object, the positions of an array. */
  function Names(s: Server, v: Json): seq<string> {
    match v
    case Obj(_) => s.keys(v)
    case Arr(items) => seq(|items|, i requires 0 <= i < |items| => Print(i))
    case _ => []
  }

  function Paths(pointer: string, names: seq<string>): seq<string> {
    seq(|names|, i requires 0 <= i < |names| => ChildPath(pointer, names[i]))
  }

  /** A nonempty piece of what remains from an offset on, and where the next one starts. */
  predicate Piece<T(==)>(whole: seq<T>, offset: nat, piece: seq<T>, next: Option<nat>) {
    var end := offset + |piece|;
    && end <= |whole| && piece == whole[offset..end]
    && next == (if end < |whole| then Some(end) else None)
    && (offset < |whole| ==> piece != [])
  }

  /** A scan that was asked for, or of an object too large for half a response. */
  predicate Scanned(s: Server, v: Json, req: Request) {
    req.scan || (v.Obj? && s.large(v))
  }

  predicate CanScan(v: Json) {
    v.Obj? || v.Arr?
  }

  /** Everything a reply promises; how long its piece is, is left to the server. */
  ghost predicate IsReply(s: Server, doc: Json, req: Request, reply: Reply) {
    && ValidPointer(req.pointer, POINTER_LIMIT)
    && (req.expected.Some? ==> req.expected.value == s.digest(doc)) && reply.digest == s.digest(doc)
    && Resolve(doc, req.pointer).Some?
    && IsPieceOf(s, Resolve(doc, req.pointer).value, req, reply)
  }

  ghost predicate IsPieceOf(s: Server, v: Json, req: Request, reply: Reply) {
    if Scanned(s, v, req) then
      reply.scan && CanScan(v) && Piece(Paths(req.pointer, Names(s, v)), req.offset, reply.entries, reply.next)
    else
      !reply.scan &&
      match v
      case Str(text) => reply.value.Str? && Piece(text, req.offset, reply.value.s, reply.next)
      case Arr(items) => reply.value.Arr? && Piece(items, req.offset, reply.value.items, reply.next)
      case _ => reply.value == v && reply.next == None
  }

  function Total(s: Server, v: Json, scan: bool): Option<nat> {
    match v
    case Str(text) => Some(|text|)
    case Arr(items) => Some(|items|)
    case Obj(_) => if scan then Some(|s.keys(v)|) else None
    case _ => None
  }

  predicate InRange(s: Server, v: Json, req: Request) {
    match Total(s, v, Scanned(s, v, req))
    case Some(n) => req.offset <= n
    case None => req.offset == 0
  }

  /** A request there is something to answer to: only its size may still keep it from being answered. */
  predicate Answerable(s: Server, doc: Json, req: Request) {
    && ValidPointer(req.pointer, POINTER_LIMIT) && 1 <= req.limit <= LARGEST_LIMIT
    && (req.expected.Some? ==> req.expected.value == s.digest(doc))
    && Resolve(doc, req.pointer).Some?
    && var v := Resolve(doc, req.pointer).value;
       InRange(s, v, req) && (Scanned(s, v, req) ==> CanScan(v))
  }

  /** The reply carrying `length` items from the offset on. */
  function Body(s: Server, doc: Json, v: Json, req: Request, length: nat): Reply
    requires Scanned(s, v, req) ==> CanScan(v)
    requires Total(s, v, Scanned(s, v, req)).Some? ==> req.offset + length <= Total(s, v, Scanned(s, v, req)).value
  {
    var total := Total(s, v, Scanned(s, v, req));
    var next := if total.Some? && req.offset + length < total.value then Some(req.offset + length) else None;
    if Scanned(s, v, req) then
      Reply(s.digest(doc), Null, true, Paths(req.pointer, Names(s, v)[req.offset..req.offset + length]), next)
    else
      match v
      case Str(text) => Reply(s.digest(doc), Str(text[req.offset..req.offset + length]), false, [], next)
      case Arr(items) => Reply(s.digest(doc), Arr(items[req.offset..req.offset + length]), false, [], next)
      case _ => Reply(s.digest(doc), v, false, [], None)
  }

  /** The smallest reply to a request: one item, if any are left, or the whole value if it has none. */
  function Smallest(s: Server, doc: Json, req: Request): Reply
    requires Answerable(s, doc, req)
  {
    var v := Resolve(doc, req.pointer).value;
    var total := Total(s, v, Scanned(s, v, req));
    Body(s, doc, v, req, if total.Some? && req.offset < total.value then 1 else 0)
  }

  lemma BodyIsPiece(s: Server, doc: Json, v: Json, req: Request, length: nat)
    requires Scanned(s, v, req) ==> CanScan(v)
    requires Total(s, v, Scanned(s, v, req)).Some? ==>
               && req.offset + length <= Total(s, v, Scanned(s, v, req)).value
               && (req.offset < Total(s, v, Scanned(s, v, req)).value ==> length > 0)
    ensures IsPieceOf(s, v, req, Body(s, doc, v, req, length))
  {
    if Scanned(s, v, req) {
      var whole, piece := Paths(req.pointer, Names(s, v)), Paths(req.pointer, Names(s, v)[req.offset..req.offset + length]);
      assert piece == whole[req.offset..req.offset + length];
    }
  }

  /** Why a request was refused: each code is true of the request and of nothing else. */
  ghost predicate Explains(s: Server, doc: Json, req: Request, why: Failure) {
    var v := Resolve(doc, req.pointer);
    match why
    case BadPointer => !ValidPointer(req.pointer, POINTER_LIMIT)
    case BadLimit => !(1 <= req.limit <= LARGEST_LIMIT)
    case Changed => req.expected.Some? && req.expected.value != s.digest(doc)
    case Missing => v.None?
    case BadOffset => v.Some? && !InRange(s, v.value, req)
    case BadScan => v.Some? && req.scan && !CanScan(v.value)
    case ValueTooLarge => Answerable(s, doc, req) && !s.fits(Smallest(s, doc, req))
    case _ => false
  }

  /**
   `read_value`: halve the piece until the reply fits. It is refused for its size only when
   not even one item from this very offset fits.
  */
  method ReadValue(s: Server, doc: Json, req: Request) returns (r: Result<Reply, Failure>)
    ensures r.Ok? ==> IsReply(s, doc, req, r.value) && s.fits(r.value) && Answerable(s, doc, req)
    ensures r.Err? ==> Explains(s, doc, req, r.error)
  {
    var valid := ValidatePointer(req.pointer, POINTER_LIMIT);
    if valid.Err? { return Err(BadPointer); }
    if !(1 <= req.limit <= LARGEST_LIMIT) { return Err(BadLimit); }
    if req.expected.Some? && req.expected.value != s.digest(doc) { return Err(Changed); }
    var selected := Resolve(doc, req.pointer);
    if selected.None? { return Err(Missing); }
    var v := selected.value;
    if !InRange(s, v, req) { return Err(BadOffset); }
    if Scanned(s, v, req) && !CanScan(v) { return Err(BadScan); }
    r := Shrink(s, doc, req, v);
  }

  /** The halving loop, from as many items as the limit allows. */
  method Shrink(s: Server, doc: Json, req: Request, v: Json) returns (r: Result<Reply, Failure>)
    requires Answerable(s, doc, req) && v == Resolve(doc, req.pointer).value
    ensures r.Ok? ==> IsPieceOf(s, v, req, r.value) && r.value.digest == s.digest(doc) && s.fits(r.value)
    ensures r.Err? ==> r.error == ValueTooLarge && !s.fits(Smallest(s, doc, req))
  {
    var total := Total(s, v, Scanned(s, v, req));
    var length: nat := if total.None? then 0
                       else if total.value - req.offset < req.limit then total.value - req.offset else req.limit;
    while true
      invariant total.Some? ==> req.offset + length <= total.value && (req.offset < total.value ==> length > 0)
      invariant total.None? ==> length == 0
      decreases length
    {
      var reply := Body(s, doc, v, req, length);
      BodyIsPiece(s, doc, v, req, length);
      if s.fits(reply) { return Ok(reply); }
      if length <= 1 { return Err(ValueTooLarge); }
      length := length / 2;
    }
  }

  /** The paths an explicit scan of an array hands out lead to its items. */
  lemma IndexPathResolves(doc: Json, pointer: string, i: nat)
    requires Resolve(doc, pointer).Some? && Resolve(doc, pointer).value.Arr?
    requires i < |Resolve(doc, pointer).value.items| <= USIZE
    ensures Resolve(doc, ChildPath(pointer, Print(i))) == Some(Resolve(doc, pointer).value.items[i])
  {
    ChildPathResolves(doc, pointer, Print(i));
    ParseInvertsPrint(i);
    PrintDigits(i);
    NoLeadingZero(i);
  }

  lemma {:induction false} NoLeadingZero(n: nat)
    ensures Print(n)[0] == '0' ==> n == 0
    ensures n > 0 ==> |Print(n)| > 0 && Print(n)[0] != '+'
  {
    if n >= 10 {
      PrintDigits(n / 10);
      NoLeadingZero(n / 10);
      assert Print(n)[0] == Print(n / 10)[0];
    }
  }
}

/** The client's side: rebuild a document from whatever pieces it is served. */
module DocumentClient {
  import opened Wrappers
  import opened Json
  import opened Pointer
  import opened DocumentServer

  /** The document may be another one at every call, and any call may fail. */
  datatype World = World(server: Server, doc: nat -> Json, down: nat -> bool)

  /** Digests tell apart the documents that are served, and key lists are what they should be. */
  ghost predicate Faithful(w: World) {
    && Enumerates(w.server.keys)
    && forall t: nat, u: nat :: w.server.digest(w.doc(t)) == w.server.digest(w.doc(u)) ==> w.doc(t) == w.doc(u)
  }

  /** The document is one that is served at some time. */
  ghost predicate Served(w: World, doc: Json) {
    exists t: nat :: w.doc(t) == doc
  }

  /** What the client asks for: the default limit, and no scan of its own. */
  function Ask(pointer: string, expected: Option<string>, offset: nat): Request {
    Request(pointer, expected, offset, DEFAULT_LIMIT, false)
  }

  /** Every item of the document fits into a reply of its own, and every path into a request. */
  ghost predicate Deliverable(s: Server, doc: Json) {
    && (forall p: string, e: Option<string>, offset: nat :: Answerable(s, doc, Ask(p, e, offset)) ==>
          s.fits(Smallest(s, doc, Ask(p, e, offset))))
    && (forall p: string :: Resolve(doc, p).Some? ==> Bytes(p) <= POINTER_LIMIT)
  }

  /** No call fails, each item fits, and the document stays as it is. */
  ghost predicate Calm(w: World, doc: Json) {
    && Deliverable(w.server, doc)
    && (forall t: nat :: w.doc(t) == doc && !w.down(t))
  }

  class Client {
    const w: World
    var clock: nat

    constructor (w: World)
      ensures this.w == w && clock == 0
    {
      this.w := w;
      clock := 0;
    }

    method Call(pointer: string, expected: Option<string>, offset: nat) returns (r: Result<Reply, Failure>)
      modifies this
      ensures clock == old(clock) + 1
      ensures r.Ok? ==> IsReply(w.server, w.doc(old(clock)), Ask(pointer, expected, offset), r.value)
      ensures forall doc :: Calm(w, doc) && Answerable(w.server, doc, Ask(pointer, expected, offset)) ==> r.Ok?
    {
      var now := clock;
      clock := clock + 1;
      if w.down(now) { return Err(Unreachable); }
      r := ReadValue(w.server, w.doc(now), Ask(pointer, expected, offset));
    }
  }

  /** A pointer the server has no syntactic objection to, and that leads to `value`. */
  ghost predicate LeadsTo(doc: Json, pointer: string, value: Json) {
    Escaped(pointer) && (pointer == "" || pointer[0] == '/') && Resolve(doc, pointer) == Some(value)
  }

  lemma CalmAnswers(w: World, doc: Json, value: Json, req: Request)
    requires Calm(w, doc) && LeadsTo(doc, req.pointer, value) && req == Ask(req.pointer, req.expected, req.offset)
    requires InRange(w.server, value, req)
    requires req.expected.Some? ==> req.expected.value == w.server.digest(doc)
    ensures Answerable(w.server, doc, req)
  {
    assert Resolve(doc, req.pointer).Some?;
  }

  lemma ChildLeads(doc: Json, pointer: string, value: Json, key: string)
    requires LeadsTo(doc, pointer, value) && value.Obj? && key in value.members
    ensures LeadsTo(doc, ChildPath(pointer, key), value.members[key])
    ensures Unescape(LastSegment(ChildPath(pointer, key))) == key
  {
    ChildPathEscaped(pointer, key);
    ChildPathResolves(doc, pointer, key);
  }

  /** The members read so far: the first n in key order. */
  ghost predicate Collected(found: map<string, Json>, value: Json, keys: seq<string>, n: nat) {
    && value.Obj? && n <= |keys|
    && (forall k :: k in found <==> k in keys[..n])
    && (forall k :: k in found ==> k in value.members && found[k] == value.members[k])
  }

  lemma CollectedNext(found: map<string, Json>, value: Json, keys: seq<string>, n: nat)
    requires Collected(found, value, keys, n) && n < |keys|
    ensures keys[n] in value.members ==> Collected(found[keys[n] := value.members[keys[n]]], value, keys, n + 1)
  {
    assert keys[..n + 1] == keys[..n] + [keys[n]];
  }

  /** A scan's entry is the path of the key it stands for. */
  lemma EntryLeads(s: Server, doc: Json, pointer: string, value: Json, entries: seq<string>, offset: nat, i: nat)
    requires Enumerates(s.keys) && LeadsTo(doc, pointer, value) && value.Obj?
    requires offset + |entries| <= |s.keys(value)| && i < |entries|
    requires entries == Paths(pointer, s.keys(value))[offset..offset + |entries|]
    ensures var key := s.keys(value)[offset + i];
            && key in value.members
            && LeadsTo(doc, entries[i], value.members[key]) && Unescape(LastSegment(entries[i])) == key
  {
    var key := s.keys(value)[offset + i];
    assert key in s.keys(value);
    assert entries[i] == Paths(pointer, s.keys(value))[offset + i] == ChildPath(pointer, key);
    ChildLeads(doc, pointer, value, key);
  }

  lemma EntryStep(s: Server, doc: Json, pointer: string, value: Json, entries: seq<string>, offset: nat, i: nat,
                  found: map<string, Json>)
    requires Enumerates(s.keys) && LeadsTo(doc, pointer, value) && value.Obj?
    requires offset + |entries| <= |s.keys(value)| && i < |entries|
    requires entries == Paths(pointer, s.keys(value))[offset..offset + |entries|]
    requires Collected(found, value, s.keys(value), offset + i)
    ensures var key := s.keys(value)[offset + i];
            && key in value.members
            && LeadsTo(doc, entries[i], value.members[key]) && Unescape(LastSegment(entries[i])) == key
            && Collected(found[key := value.members[key]], value, s.keys(value), offset + i + 1)
  {
    EntryLeads(s, doc, pointer, value, entries, offset, i);
    CollectedNext(found, value, s.keys(value), offset + i);
  }

  /** One page of a scan: read every child it lists. */
  method ScanPage(c: Client, pointer: string, digest: string, entries: seq<string>, found: map<string, Json>,
                  ghost offset: nat, ghost doc: Json, ghost value: Json)
    returns (r: Result<map<string, Json>, Failure>)
    requires Faithful(c.w) && Served(c.w, doc) && digest == c.w.server.digest(doc) && LeadsTo(doc, pointer, value) && value.Obj?
    requires offset + |entries| <= |c.w.server.keys(value)|
    requires entries == Paths(pointer, c.w.server.keys(value))[offset..offset + |entries|]
    requires Collected(found, value, c.w.server.keys(value), offset)
    modifies c
    ensures r.Ok? ==> Collected(r.value, value, c.w.server.keys(value), offset + |entries|)
    ensures Calm(c.w, doc) ==> r.Ok?
    decreases value, 0
  {
    var result := found;
    ghost var keys := c.w.server.keys(value);
    var i := 0;
    while i < |entries|
      invariant i <= |entries| && Collected(result, value, keys, offset + i)
    {
      EntryStep(c.w.server, doc, pointer, value, entries, offset, i, result);
      var name := Unescape(LastSegment(entries[i]));
      var child := Portion(c, entries[i], Some(digest), doc, value.members[keys[offset + i]]);
      if child.Err? { return Err(child.error); }
      result := result[name := child.value];
      i := i + 1;
    }
    return Ok(result);
  }

  /** A page of the scan of `value`, from an offset on. */
  ghost predicate ScanPiece(s: Server, pointer: string, value: Json, offset: nat, page: Reply) {
    page.scan && Piece(Paths(pointer, s.keys(value)), offset, page.entries, page.next)
  }

  /** The next page of a scan: it is one of the same document, or the call failed. */
  method NextPage(c: Client, pointer: string, digest: string, offset: nat, ghost doc: Json, ghost value: Json)
    returns (r: Result<Reply, Failure>)
    requires Faithful(c.w) && Served(c.w, doc) && digest == c.w.server.digest(doc)
    requires LeadsTo(doc, pointer, value) && value.Obj? && c.w.server.large(value) && offset <= |c.w.server.keys(value)|
    modifies c
    ensures r.Ok? ==> ScanPiece(c.w.server, pointer, value, offset, r.value)
    ensures Calm(c.w, doc) ==> r.Ok?
  {
    if Calm(c.w, doc) { CalmAnswers(c.w, doc, value, Ask(pointer, Some(digest), offset)); }
    r := c.Call(pointer, Some(digest), offset);
  }

  lemma CollectedAll(found: map<string, Json>, value: Json, s: Server)
    requires Enumerates(s.keys) && value.Obj? && Collected(found, value, s.keys(value), |s.keys(value)|)
    ensures Obj(found) == value
  {
    var keys := s.keys(value);
    assert keys[..|keys|] == keys;
    assert found == value.members;
  }

  /** Follow a scan to its end. */
  method ReadScan(c: Client, pointer: string, first: Reply, ghost doc: Json, ghost value: Json)
    returns (r: Result<Json, Failure>)
    requires Faithful(c.w) && Served(c.w, doc) && LeadsTo(doc, pointer, value) && first.scan
    requires exists e :: IsReply(c.w.server, doc, Ask(pointer, e, 0), first)
    modifies c
    ensures r.Ok? ==> r.value == value
    ensures Calm(c.w, doc) ==> r.Ok?
    decreases value, 1
  {
    var found: map<string, Json> := map[];
    var page := first;
    ghost var s, offset := c.w.server, 0;
    while true
      invariant Collected(found, value, s.keys(value), offset) && ScanPiece(s, pointer, value, offset, page)
      decreases |s.keys(value)| - offset, page.next
    {
      var more := ScanPage(c, pointer, first.digest, page.entries, found, offset, doc, value);
      if more.Err? { return Err(more.error); }
      found := more.value;
      offset := offset + |page.entries|;
      if page.next.None? { break; }
      var reply := NextPage(c, pointer, first.digest, page.next.value, doc, value);
      if reply.Err? { return Err(reply.error); }
      page := reply.value;
    }
    CollectedAll(found, value, s);
    return Ok(Obj(found));
  }

  function Append(result: Json, slice: Json): Option<Json> {
    match (result, slice)
    case (Str(text), Str(more)) => Some(Str(text + more))
    case (Arr(items), Arr(more)) => Some(Arr(items + more))
    case _ => None
  }

  lemma AppendGrows(s: Server, value: Json, req: Request, result: Json, page: Reply)
    requires Prefix(result, value, Some(req.offset)) && IsPieceOf(s, value, req, page) && !req.scan
    ensures Append(result, page.value).Some? && Prefix(Append(result, page.value).value, value, page.next)
    ensures page.next.Some? ==> page.next.value > req.offset
  {
  }

  /** Append slices until there are none left. */
  method ReadSlices(c: Client, pointer: string, first: Reply, ghost doc: Json, ghost value: Json)
    returns (r: Result<Json, Failure>)
    requires Faithful(c.w) && Served(c.w, doc) && LeadsTo(doc, pointer, value) && !first.scan
    requires exists e :: IsReply(c.w.server, doc, Ask(pointer, e, 0), first)
    modifies c
    ensures r.Ok? ==> r.value == value
    ensures Calm(c.w, doc) ==> r.Ok?
    decreases value, 1
  {
    var result, next := first.value, first.next;
    while next.Some?
      invariant Prefix(result, value, next)
      decreases if next.Some? then Length(value) + 1 - next.value else 0
    {
      if Calm(c.w, doc) { CalmAnswers(c.w, doc, value, Ask(pointer, Some(first.digest), next.value)); }
      var reply := c.Call(pointer, Some(first.digest), next.value);
      if reply.Err? { return Err(reply.error); }
      AppendGrows(c.w.server, value, Ask(pointer, Some(first.digest), next.value), result, reply.value);
      var longer := Append(result, reply.value.value);
      if longer.None? { return Err(NotASlice); }
      result, next := longer.value, reply.value.next;
    }
    return Ok(result);
  }

  function Length(v: Json): nat {
    match v
    case Str(text) => |text|
    case Arr(items) => |items|
    case _ => 0
  }

  /** What has been read is the value up to the next offset, or all of it. */
  ghost predicate Prefix(result: Json, value: Json, next: Option<nat>) {
    match next
    case None => result == value
    case Some(n) =>
      match value
      case Str(text) => n < |text| && result == Str(text[..n])
      case Arr(items) => n < |items| && result == Arr(items[..n])
      case _ => false
  }

  /** Read the value at a pointer, scanning or slicing as the server decides. */
  method Portion(c: Client, pointer: string, expected: Option<string>, ghost doc: Json, ghost value: Json)
    returns (r: Result<Json, Failure>)
    requires Faithful(c.w) && Served(c.w, doc) && (Resolve(doc, pointer).Some? ==> value == Resolve(doc, pointer).value)
    requires if expected.Some? then expected.value == c.w.server.digest(doc) else doc == c.w.doc(c.clock)
    modifies c
    ensures r.Ok? ==> LeadsTo(doc, pointer, value) && r.value == value
    ensures Calm(c.w, doc) && LeadsTo(doc, pointer, value) ==> r.Ok?
    decreases value, 2
  {
    if Calm(c.w, doc) && LeadsTo(doc, pointer, value) { CalmAnswers(c.w, doc, value, Ask(pointer, expected, 0)); }
    var first := c.Call(pointer, expected, 0);
    if first.Err? { return Err(first.error); }
    if first.value.scan {
      r := ReadScan(c, pointer, first.value, doc, value);
    } else {
      r := ReadSlices(c, pointer, first.value, doc, value);
    }
  }

  /**
   `read_document`: what comes back is exactly the value the pointer led to in the document
   of the first call, whatever the server's pieces and however the document changes
   meanwhile; if nothing changes or fails, it does come back as soon as each item fits a reply.
  */
  method ReadDocument(c: Client, pointer: string) returns (r: Result<Json, Failure>)
    requires Faithful(c.w)
    modifies c
    ensures r.Ok? ==> Resolve(c.w.doc(old(c.clock)), pointer) == Some(r.value)
    ensures var doc := c.w.doc(old(c.clock));
            Calm(c.w, doc) && ValidPointer(pointer, POINTER_LIMIT) ==> (r.Ok? <==> Resolve(doc, pointer).Some?)
  {
    ghost var doc := c.w.doc(c.clock);
    r := Portion(c, pointer, None, doc, Resolve(doc, pointer).GetOr(Null));
  }
}
