/** Recipient lists and the real send of the composer (client/js/compose.js). */
module Compose {
  import opened Prelude
  import opened Selection

  // --- recipient lists ---------------------------------------------------------------------------------------

  /** ASCII, full-width and ideographic comma. */
  predicate Comma(c: char) { c == ',' || c == '\U{FF0C}' || c == '\U{3001}' }

  /** What `String.prototype.trim` strips: white space and line ends of ECMAScript. */
  predicate Blank(c: char) {
    || c in {' ', '\t', '\n', '\r', '\U{B}', '\U{C}', '\U{A0}', '\U{FEFF}', '\U{1680}', '\U{202F}', '\U{205F}',
             '\U{3000}'}
    || '\U{2000}' <= c <= '\U{200A}' || c == '\U{2028}' || c == '\U{2029}'
  }

  /** The same, by code point. */
  lemma BlanksAre(c: char)
    ensures Blank(c) <==>
              || c as int in {9, 10, 11, 12, 13, 32, 160, 5760}
              || 8192 <= c as int <= 8202
              || c as int in {8232, 8233, 8239, 8287, 12288, 65279}
  {
  }

  function TrimStart(s: string): (r: string)
    ensures r == "" || !Blank(r[0])
    ensures s != "" && !Blank(s[0]) ==> r == s
    ensures forall c :: c in r ==> c in s
  {
    if s == "" || !Blank(s[0]) then s else TrimStart(s[1..])
  }

  function TrimEnd(s: string): (r: string)
    ensures r == "" || !Blank(r[|r| - 1])
    ensures s != "" && !Blank(s[|s| - 1]) ==> r == s
    ensures r <= s
  {
    if s == "" || !Blank(s[|s| - 1]) then s else TrimEnd(s[..|s| - 1])
  }

  function Trim(s: string): string { TrimEnd(TrimStart(s)) }

  /** The pieces between separators; there is always at least one. */
  function Pieces(s: string): (ps: seq<string>)
    ensures ps != []
  {
    if s == "" then [""]
    else
      var ps := Pieces(s[..|s| - 1]);
      var c := s[|s| - 1];
      if Comma(c) then ps + [""] else ps[|ps| - 1 := ps[|ps| - 1] + [c]]
  }

  function KeepNonEmpty(ps: seq<string>): seq<string> {
    if ps == [] then []
    else KeepNonEmpty(ps[..|ps| - 1]) + (if ps[|ps| - 1] != "" then [ps[|ps| - 1]] else [])
  }

  function Trimmed(ps: seq<string>): (ts: seq<string>)
    ensures |ts| == |ps| && forall i :: 0 <= i < |ps| ==> ts[i] == Trim(ps[i])
  {
    seq(|ps|, i requires 0 <= i < |ps| => Trim(ps[i]))
  }

  function SplitRecips(s: string): seq<string> { KeepNonEmpty(Trimmed(Pieces(s))) }

  /** `join(', ')`. */
  function Join(xs: seq<string>): string {
    if xs == [] then "" else if |xs| == 1 then xs[0] else Join(xs[..|xs| - 1]) + ", " + xs[|xs| - 1]
  }

  /** A name that survives a round trip: not empty, no separator in it, no blank around it. */
  predicate Clean(x: string) {
    x != "" && !Blank(x[0]) && !Blank(x[|x| - 1]) && forall i :: 0 <= i < |x| ==> !Comma(x[i])
  }

  lemma TrimClean(x: string)
    requires Clean(x)
    ensures Trim(x) == x && Trim([' '] + x) == x
  {
    assert ([' '] + x)[1..] == x;
  }

  lemma TrimIsClean(s: string)
    requires forall i :: 0 <= i < |s| ==> !Comma(s[i])
    ensures Trim(s) == "" || Clean(Trim(s))
  {
    var t, r := TrimStart(s), Trim(s);
    assert forall i :: 0 <= i < |r| ==> r[i] in t && r[i] in s;
  }

  lemma {:induction false} PiecesHaveNoComma(s: string)
    ensures forall i, j :: 0 <= i < |Pieces(s)| && 0 <= j < |Pieces(s)[i]| ==> !Comma(Pieces(s)[i][j])
  {
    if s != "" {
      PiecesHaveNoComma(s[..|s| - 1]);
    }
  }

  lemma {:induction false} KeptAre(ps: seq<string>)
    ensures forall x :: x in KeepNonEmpty(ps) <==> x in ps && x != ""
  {
    if ps != [] {
      KeptAre(ps[..|ps| - 1]);
      assert ps == ps[..|ps| - 1] + [ps[|ps| - 1]];
    }
  }

  /** Whatever was typed, the recipients parsed from it are clean. */
  lemma SplitIsClean(s: string)
    ensures forall i :: 0 <= i < |SplitRecips(s)| ==> Clean(SplitRecips(s)[i])
  {
    hide Clean, Trim;
    var ps := Trimmed(Pieces(s));
    PiecesHaveNoComma(s);
    KeptAre(ps);
    forall x | x in SplitRecips(s)
      ensures Clean(x)
    {
      var i :| 0 <= i < |ps| && ps[i] == x;
      TrimIsClean(Pieces(s)[i]);
    }
  }

  /** The pieces with `x` put behind the last one. */
  function Lengthened(ps: seq<string>, x: string): seq<string>
    requires ps != []
  {
    ps[..|ps| - 1] + [ps[|ps| - 1] + x]
  }

  lemma PiecesPush(s: string, c: char)
    ensures Pieces(s + [c]) == if Comma(c) then Pieces(s) + [""] else Lengthened(Pieces(s), [c])
  {
    assert (s + [c])[..|s|] == s;
  }

  lemma LengthenedTwice(ps: seq<string>, x: string, y: string)
    requires ps != []
    ensures Lengthened(ps, x) != [] && Lengthened(Lengthened(ps, x), y) == Lengthened(ps, x + y)
  {
    var last := ps[|ps| - 1];
    assert Lengthened(ps, x)[..|ps| - 1] == ps[..|ps| - 1];
    assert last + x + y == last + (x + y);
  }

  lemma LengthenedByNothing(ps: seq<string>)
    requires ps != []
    ensures Lengthened(ps, "") == ps
  {
    assert ps[|ps| - 1] + "" == ps[|ps| - 1];
  }

  /** Appending text without a separator only lengthens the last piece. */
  lemma {:induction false} PiecesAppend(s: string, x: string)
    requires forall i :: 0 <= i < |x| ==> !Comma(x[i])
    ensures Pieces(s + x) == Lengthened(Pieces(s), x)
  {
    hide Pieces, Comma, Lengthened;
    if x == "" {
      assert s + x == s;
      LengthenedByNothing(Pieces(s));
    } else {
      var n := |x| - 1;
      PiecesAppend(s, x[..n]);
      PiecesPush(s + x[..n], x[n]);
      LengthenedTwice(Pieces(s), x[..n], [x[n]]);
      assert x[..n] + [x[n]] == x;
      assert s + x[..n] + [x[n]] == s + x;
    }
  }

  lemma PiecesOfMore(s: string, x: string)
    requires Clean(x)
    ensures Pieces(s + ", " + x) == Pieces(s) + [" " + x]
  {
    hide Pieces;
    PiecesPush(s, ',');
    PiecesAppend(s + ",", " " + x);
    assert s + [','] == s + ",";
    assert s + ", " + x == s + "," + (" " + x);
    assert "" + (" " + x) == " " + x;
  }

  lemma JoinMore(xs: seq<string>)
    requires xs != []
    ensures Join(xs) == if |xs| == 1 then xs[0] else Join(xs[..|xs| - 1]) + ", " + xs[|xs| - 1]
  {
  }

  lemma PiecesOfOne(x: string)
    requires Clean(x)
    ensures Pieces(x) == [x]
  {
    assert Pieces("") == [""];
    hide Pieces;
    PiecesAppend("", x);
    assert "" + x == x;
  }

  /** The pieces of a join: the names, each but the first after a space. */
  lemma {:induction false} PiecesOfJoin(xs: seq<string>)
    requires xs != [] && forall i :: 0 <= i < |xs| ==> Clean(xs[i])
    ensures |Pieces(Join(xs))| == |xs|
    ensures forall i :: 0 <= i < |xs| ==> Pieces(Join(xs))[i] == if i == 0 then xs[i] else " " + xs[i]
  {
    hide Clean, Pieces, Join;
    JoinMore(xs);
    if |xs| == 1 {
      PiecesOfOne(xs[0]);
    } else {
      PiecesOfJoin(xs[..|xs| - 1]);
      PiecesOfMore(Join(xs[..|xs| - 1]), xs[|xs| - 1]);
    }
  }

  lemma CleanNoComma(x: string)
    requires Clean(x)
    ensures x != "" && forall i :: 0 <= i < |x| ==> !Comma(x[i])
  {
  }

  lemma {:induction false} KeepAll(xs: seq<string>)
    requires forall i :: 0 <= i < |xs| ==> xs[i] != ""
    ensures KeepNonEmpty(xs) == xs
  {
    if xs != [] {
      KeepAll(xs[..|xs| - 1]);
    }
  }

  /** Splitting undoes the join of any parsed recipients, order and repetitions included. */
  lemma SplitOfJoin(xs: seq<string>)
    requires forall i :: 0 <= i < |xs| ==> Clean(xs[i])
    ensures SplitRecips(Join(xs)) == xs
  {
    hide Clean, Trim, Join;
    if xs == [] {
      SplitNothing();
    } else {
      PiecesOfJoin(xs);
      forall i | 0 <= i < |xs|
        ensures xs[i] != "" && Trimmed(Pieces(Join(xs)))[i] == xs[i]
      {
        CleanNoComma(xs[i]);
        TrimClean(xs[i]);
      }
      assert Trimmed(Pieces(Join(xs))) == xs;
      KeepAll(xs);
    }
  }

  lemma SplitNothing()
    ensures SplitRecips(Join([])) == []
  {
    assert Pieces("") == [""] && Trim("") == "";
    assert Trimmed([""]) == [""];
    assert KeepNonEmpty([""]) == KeepNonEmpty([]) + [];
  }

  // --- where names are split ------------------------------------------------------------------------------------

  lemma LengthenedBehind(ps: seq<string>, qs: seq<string>, x: string)
    requires qs != []
    ensures Lengthened(ps + qs, x) == ps + Lengthened(qs, x)
  {
    assert (ps + qs)[..|ps + qs| - 1] == ps + qs[..|qs| - 1];
  }

  lemma PiecesOfNothing(s: string, c: char)
    requires c in {',', '\U{FF0C}', '\U{3001}'}
    ensures Pieces(s + [c] + "") == Pieces(s) + Pieces("")
  {
    assert s + [c] + "" == s + [c];
    PiecesPush(s, c);
  }

  lemma {:induction false} PiecesAround(s: string, c: char, t: string)
    requires c in {',', '\U{FF0C}', '\U{3001}'}
    ensures Pieces(s + [c] + t) == Pieces(s) + Pieces(t)
  {
    hide *;
    if t == "" {
      PiecesOfNothing(s, c);
    } else {
      var n := |t| - 1;
      var init, x := t[..n], t[n];
      PiecesAround(s, c, init);
      PiecesPush(s + [c] + init, x);
      PiecesPush(init, x);
      LengthenedBehind(Pieces(s), Pieces(init), [x]);
      assert s + [c] + t == s + [c] + init + [x] && t == init + [x];
      assert Pieces(s) + Pieces(init) + [""] == Pieces(s) + (Pieces(init) + [""]);
    }
  }

  lemma {:induction false} KeepBoth(ps: seq<string>, qs: seq<string>)
    ensures KeepNonEmpty(ps + qs) == KeepNonEmpty(ps) + KeepNonEmpty(qs)
  {
    if qs == [] {
      assert ps + qs == ps;
    } else {
      KeepBoth(ps, qs[..|qs| - 1]);
      assert (ps + qs)[..|ps + qs| - 1] == ps + qs[..|qs| - 1];
    }
  }

  lemma SplitAround(s: string, c: char, t: string)
    requires c in {',', '\U{FF0C}', '\U{3001}'}
    ensures SplitRecips(s + [c] + t) == SplitRecips(s) + SplitRecips(t)
  {
    hide Pieces, KeepNonEmpty, Trim;
    PiecesAround(s, c, t);
    assert Trimmed(Pieces(s) + Pieces(t)) == Trimmed(Pieces(s)) + Trimmed(Pieces(t));
    KeepBoth(Trimmed(Pieces(s)), Trimmed(Pieces(t)));
  }

  /** Text with none of the three commas in it is one name, blanks around it taken off, or none. */
  lemma SplitOne(s: string)
    requires ',' !in s && '\U{FF0C}' !in s && '\U{3001}' !in s
    ensures SplitRecips(s) == if Trim(s) == "" then [] else [Trim(s)]
  {
    hide Trim;
    assert forall i :: 0 <= i < |s| ==> s[i] in s && !Comma(s[i]);
    WholePiece(s);
    assert Trimmed([s]) == [Trim(s)];
    assert KeepNonEmpty([Trim(s)]) == KeepNonEmpty([]) + (if Trim(s) != "" then [Trim(s)] else []);
  }

  lemma WholePiece(s: string)
    requires forall i :: 0 <= i < |s| ==> !Comma(s[i])
    ensures Pieces(s) == [s]
  {
    assert Pieces("") == [""];
    hide Pieces;
    PiecesAppend("", s);
    assert "" + s == s;
  }

  /**
   * The names typed: split at each of the three commas and nowhere else, blanks around them taken off, empty ones left
   * out.
   */
  lemma SplitExactly(s: string, c: char, t: string)
    ensures c in {',', '\U{FF0C}', '\U{3001}'} ==> SplitRecips(s + [c] + t) == SplitRecips(s) + SplitRecips(t)
    ensures ',' !in s && '\U{FF0C}' !in s && '\U{3001}' !in s ==>
              SplitRecips(s) == if Trim(s) == "" then [] else [Trim(s)]
    ensures exists i, j :: 0 <= i <= j <= |s| && Trim(s) == s[i..j]
                           && (forall k :: 0 <= k < |s| && !(i <= k < j) ==> Blank(s[k]))
                           && (i < j ==> !Blank(s[i]) && !Blank(s[j - 1]))
  {
    hide SplitRecips;
    if c in {',', '\U{FF0C}', '\U{3001}'} {
      SplitAround(s, c, t);
    }
    if ',' !in s && '\U{FF0C}' !in s && '\U{3001}' !in s {
      SplitOne(s);
    }
    TrimTakesBlanks(s);
  }

  lemma TrimTakesBlanks(s: string)
    ensures exists i, j :: 0 <= i <= j <= |s| && Trim(s) == s[i..j]
                           && (forall k :: 0 <= k < |s| && !(i <= k < j) ==> Blank(s[k]))
                           && (i < j ==> !Blank(s[i]) && !Blank(s[j - 1]))
  {
    hide Blank;
    var i := StartOf(s);
    var j := EndOf(s[i..]);
    assert s[i..][..j] == s[i..i + j];
    forall k | 0 <= k < |s| && !(i <= k < i + j)
      ensures Blank(s[k])
    {
      if k >= i {
        assert s[k] == s[i..][k - i];
      }
    }
  }

  lemma {:induction false} StartOf(s: string) returns (i: nat)
    ensures i <= |s| && TrimStart(s) == s[i..] && (forall k :: 0 <= k < i ==> Blank(s[k])) && (i < |s| ==> !Blank(s[i]))
  {
    hide Blank;
    i := 0;
    if s != "" && Blank(s[0]) {
      i := StartOf(s[1..]);
      assert s[1..][i..] == s[i + 1..];
      assert forall k :: 0 < k < i + 1 ==> s[k] == s[1..][k - 1];
      i := i + 1;
    }
  }

  lemma {:induction false} EndOf(s: string) returns (j: nat)
    ensures j <= |s| && TrimEnd(s) == s[..j]
    ensures (forall k :: j <= k < |s| ==> Blank(s[k])) && (j > 0 ==> !Blank(s[j - 1]))
  {
    hide Blank;
    j := |s|;
    if s != "" && Blank(s[|s| - 1]) {
      j := EndOf(s[..|s| - 1]);
      assert s[..|s| - 1][..j] == s[..j];
    }
  }

  // --- the mailbox as a value ----------------------------------------------------------------------------------

  datatype Folder = InDrafts | InSent | Elsewhere(name: string)

  datatype Msg = Msg(to: seq<string>, body: string, html: bool, text: string, attach: seq<string>, nodeIds: seq<string>)

  datatype Thread = Thread(id: nat, subject: string, folder: Folder, read: bool, msgs: seq<Msg>)

  /** The threads, newest first, and the counter thread ids are drawn from. */
  datatype Box = Box(threads: seq<Thread>, next: nat)

  datatype Draft = Draft(
    to: string, subject: string, body: string, text: string, attach: seq<string>,
    threadId: Option<nat>, replyThread: Option<nat>)

  /** The node's answer to each POST: a receipt id, or the reason it refused. */
  type Api = (nat, string) -> Result<string, string>

  datatype Report =
    | Refused
    | AllFailed(reason: string)
    | Crashed
    | PartlySent(reason: string)
    | Delivered

  function IndexOf(threads: seq<Thread>, id: Option<nat>): (i: Option<nat>)
    ensures i.Some? ==> i.value < |threads| && id == Some(threads[i.value].id)
                        && forall j :: 0 <= j < i.value ==> id != Some(threads[j].id)
    ensures i.None? ==> forall j :: 0 <= j < |threads| ==> id != Some(threads[j].id)
  {
    if threads == [] then None
    else if id == Some(threads[0].id) then Some(0)
    else
      var rest := IndexOf(threads[1..], id);
      if rest.Some? then Some(rest.value + 1) else None
  }

  function Titled(subject: string): string { if subject == "" then "(no subject)" else subject }

  function DraftMsg(d: Draft, text: string): Msg { Msg(SplitRecips(d.to), d.body, true, text, d.attach, []) }

  /** Rewrite the draft's thread if it has one, else put a new one in front. */
  function Upserted(box: Box, d: Draft, text: string): Box {
    var i := IndexOf(box.threads, d.threadId);
    if i.Some? then
      box.(threads := box.threads[i.value :=
        box.threads[i.value].(subject := Titled(d.subject), msgs := [DraftMsg(d, text)])])
    else Box([Thread(box.next, Titled(d.subject), InDrafts, true, [DraftMsg(d, text)])] + box.threads, box.next + 1)
  }

  function Sent(recips: seq<string>, api: Api): seq<string> {
    if recips == [] then []
    else
      var n := |recips| - 1;
      Sent(recips[..n], api) + (if api(n, recips[n]).Ok? then [recips[n]] else [])
  }

  function Receipts(recips: seq<string>, api: Api): seq<string> {
    if recips == [] then []
    else
      var n := |recips| - 1;
      var answer := api(n, recips[n]);
      Receipts(recips[..n], api) + (if answer.Ok? && answer.value != "" then [answer.value] else [])
  }

  function Failed(recips: seq<string>, api: Api): seq<string> {
    if recips == [] then []
    else
      var n := |recips| - 1;
      Failed(recips[..n], api) + (if api(n, recips[n]).Err? then [recips[n]] else [])
  }

  function Reasons(recips: seq<string>, api: Api): (rs: seq<string>)
    ensures |rs| == |Failed(recips, api)|
  {
    if recips == [] then []
    else
      var n := |recips| - 1;
      Reasons(recips[..n], api) + (if api(n, recips[n]).Err? then [api(n, recips[n]).error] else [])
  }

  /** File the record of what went out: in the thread replied to, or as a new sent thread. */
  function Recorded(box: Box, d: Draft, msg: Msg): Box {
    var i := IndexOf(box.threads, d.replyThread);
    if i.Some? then
      var t := box.threads[i.value];
      box.(threads := box.threads[i.value := t.(msgs := t.msgs + [msg], read := true)])
    else Box([Thread(box.next, Titled(d.subject), InSent, true, [msg])] + box.threads, box.next + 1)
  }

  function SentMsg(d: Draft, text: string, api: Api): Msg {
    var recips := SplitRecips(d.to);
    Msg(Sent(recips, api), text, false, text, [], Receipts(recips, api))
  }

  /** The draft of what could not be sent. */
  function Remainder(d: Draft, api: Api): Draft {
    d.(threadId := None, to := Join(Failed(SplitRecips(d.to), api)))
  }

  function Committed(box: Box, d: Draft, text: string, api: Api): (Box, Report) {
    var recips := SplitRecips(d.to);
    var failed := Failed(recips, api);
    if d.attach != [] then (Upserted(box, d, text), Refused)
    else if Sent(recips, api) == [] then
      (Upserted(box, d, text), if failed == [] then Crashed else AllFailed(Reasons(recips, api)[0]))
    else
      var recorded := Recorded(box, d, SentMsg(d, text, api));
      if failed == [] then (recorded, Delivered)
      else (Upserted(recorded, Remainder(d, api), text), PartlySent(Reasons(recips, api)[0]))
  }

  // --- conservation --------------------------------------------------------------------------------------------

  lemma PushLeft(a: seq<string>, b: seq<string>, c: seq<string>, x: string)
    requires multiset(a) + multiset(b) == multiset(c)
    ensures multiset(a + [x]) + multiset(b) == multiset(c + [x])
  {
  }

  lemma PushRight(a: seq<string>, b: seq<string>, c: seq<string>, x: string)
    requires multiset(a) + multiset(b) == multiset(c)
    ensures multiset(a) + multiset(b + [x]) == multiset(c + [x])
  {
  }

  /** The answer to one POST puts its recipient on one of the two lists. */
  lemma LastAnswer(recips: seq<string>, api: Api)
    requires recips != []
    ensures var n := |recips| - 1;
            var sent, failed := Sent(recips[..n], api), Failed(recips[..n], api);
            if api(n, recips[n]).Ok?
            then Sent(recips, api) == sent + [recips[n]] && Failed(recips, api) == failed
            else Sent(recips, api) == sent && Failed(recips, api) == failed + [recips[n]]
  {
    var n := |recips| - 1;
    assert Sent(recips[..n], api) + [] == Sent(recips[..n], api);
    assert Failed(recips[..n], api) + [] == Failed(recips[..n], api);
  }

  lemma {:induction false} SentAndFailed(recips: seq<string>, api: Api)
    ensures multiset(Sent(recips, api)) + multiset(Failed(recips, api)) == multiset(recips)
  {
    if recips != [] {
      var n := |recips| - 1;
      var sent, failed := Sent(recips[..n], api), Failed(recips[..n], api);
      LastAnswer(recips, api);
      SentAndFailed(recips[..n], api);
      assert recips == recips[..n] + [recips[n]];
      hide Sent, Failed;
      if api(n, recips[n]).Ok? {
        PushLeft(sent, failed, recips[..n], recips[n]);
      } else {
        PushRight(sent, failed, recips[..n], recips[n]);
      }
    }
  }

  lemma {:induction false} FailedWereTyped(recips: seq<string>, api: Api)
    ensures forall x :: x in Failed(recips, api) ==> x in recips
  {
    if recips != [] {
      FailedWereTyped(recips[..|recips| - 1], api);
    }
  }

  /** The kept draft reads back as exactly the failed attempts, in order. */
  lemma RemainderReadsBack(d: Draft, api: Api)
    ensures SplitRecips(Remainder(d, api).to) == Failed(SplitRecips(d.to), api)
  {
    hide Clean, Join, SplitRecips, Failed;
    var recips := SplitRecips(d.to);
    SplitIsClean(d.to);
    FailedWereTyped(recips, api);
    forall i | 0 <= i < |Failed(recips, api)|
      ensures Clean(Failed(recips, api)[i])
    {
      assert Failed(recips, api)[i] in recips;
    }
    SplitOfJoin(Failed(recips, api));
  }

  // --- who got it ----------------------------------------------------------------------------------------------

  predicate PlacesOf(recips: seq<string>, api: Api, accepted: bool, places: seq<nat>) {
    forall i :: 0 <= i < |recips| ==> (i in places <==> api(i, recips[i]).Ok? == accepted)
  }

  /** These are the recipients whose POST the node accepted, or refused, in the order typed. */
  ghost predicate ThoseAnswered(recips: seq<string>, api: Api, accepted: bool, them: seq<string>) {
    exists places :: Picks(recips, places, them) && PlacesOf(recips, api, accepted, places)
  }

  lemma PlacesPush(recips: seq<string>, api: Api, accepted: bool, places: seq<nat>, x: string)
    requires PlacesOf(recips, api, accepted, places) && |recips| !in places
    ensures PlacesOf(recips + [x], api, accepted,
                     if api(|recips|, x).Ok? == accepted then places + [|recips|] else places)
  {
    assert forall i :: 0 <= i < |recips| ==> (recips + [x])[i] == recips[i];
  }

  /** The list a POST's recipient goes on. */
  function Answered(recips: seq<string>, api: Api, accepted: bool): seq<string> {
    if accepted then Sent(recips, api) else Failed(recips, api)
  }

  lemma AnsweredPush(recips: seq<string>, api: Api, accepted: bool, x: string)
    ensures Answered(recips + [x], api, accepted)
         == if api(|recips|, x).Ok? == accepted then Answered(recips, api, accepted) + [x]
            else Answered(recips, api, accepted)
  {
    assert (recips + [x])[..|recips|] == recips;
  }

  lemma NobodyAnswered(api: Api, accepted: bool)
    ensures Picks([], [], Answered([], api, accepted)) && PlacesOf([], api, accepted, [])
  {
  }

  lemma {:induction false} AnsweredPicked(recips: seq<string>, api: Api, accepted: bool) returns (places: seq<nat>)
    ensures Picks(recips, places, Answered(recips, api, accepted)) && PlacesOf(recips, api, accepted, places)
  {
    hide *;
    places := [];
    if recips == [] {
      NobodyAnswered(api, accepted);
    } else {
      var n := |recips| - 1;
      var init, x := recips[..n], recips[n];
      places := AnsweredPicked(init, api, accepted);
      PicksMore(init, places, Answered(init, api, accepted), x);
      AnsweredPush(init, api, accepted, x);
      PlacesPush(init, api, accepted, places, x);
      assert recips == init + [x];
      if api(n, x).Ok? == accepted {
        places := places + [n];
      }
    }
  }

  /** Sent to are exactly those the node accepted for, and kept exactly those it refused. */
  lemma SentExactly(recips: seq<string>, api: Api)
    ensures ThoseAnswered(recips, api, true, Sent(recips, api))
    ensures ThoseAnswered(recips, api, false, Failed(recips, api))
  {
    hide Picks, Sent, Failed, PlacesOf;
    var ok := AnsweredPicked(recips, api, true);
    var bad := AnsweredPicked(recips, api, false);
  }

  ghost predicate ReceiptsAt(recips: seq<string>, api: Api, places: seq<nat>, ids: seq<string>) {
    && Ascending(places, |recips|) && |ids| == |places|
    && forall k :: 0 <= k < |ids| ==> api(places[k], recips[places[k]]) == Ok(ids[k])
  }

  predicate Receipted(recips: seq<string>, api: Api, places: seq<nat>) {
    forall i :: 0 <= i < |recips| ==> (i in places <==> api(i, recips[i]).Ok? && api(i, recips[i]).value != "")
  }

  /** The receipt ids that are not empty, in the order of the recipients. */
  ghost predicate TheReceipts(recips: seq<string>, api: Api, ids: seq<string>) {
    exists places :: ReceiptsAt(recips, api, places, ids) && Receipted(recips, api, places)
  }

  lemma ReceiptedPush(recips: seq<string>, api: Api, places: seq<nat>, x: string)
    requires Receipted(recips, api, places) && |recips| !in places
    ensures var answer := api(|recips|, x);
            Receipted(recips + [x], api, if answer.Ok? && answer.value != "" then places + [|recips|] else places)
  {
    assert forall i :: 0 <= i < |recips| ==> (recips + [x])[i] == recips[i];
  }

  lemma ReceiptsMore(recips: seq<string>, api: Api, places: seq<nat>, ids: seq<string>, x: string)
    requires ReceiptsAt(recips, api, places, ids)
    ensures ReceiptsAt(recips + [x], api, places, ids) && |recips| !in places
    ensures api(|recips|, x).Ok? ==>
              ReceiptsAt(recips + [x], api, places + [|recips|], ids + [api(|recips|, x).value])
  {
  }

  lemma ReceiptsPush(recips: seq<string>, api: Api, x: string)
    ensures var answer := api(|recips|, x);
            Receipts(recips + [x], api)
            == if answer.Ok? && answer.value != "" then Receipts(recips, api) + [answer.value]
               else Receipts(recips, api)
  {
    assert (recips + [x])[..|recips|] == recips;
  }

  lemma NoReceipts(api: Api)
    ensures ReceiptsAt([], api, [], Receipts([], api)) && Receipted([], api, [])
  {
  }

  lemma {:induction false} ReceiptsPicked(recips: seq<string>, api: Api) returns (places: seq<nat>)
    ensures ReceiptsAt(recips, api, places, Receipts(recips, api)) && Receipted(recips, api, places)
  {
    hide *;
    places := [];
    if recips == [] {
      NoReceipts(api);
    } else {
      var n := |recips| - 1;
      var init, x := recips[..n], recips[n];
      places := ReceiptsPicked(init, api);
      ReceiptsMore(init, api, places, Receipts(init, api), x);
      ReceiptsPush(init, api, x);
      ReceiptedPush(init, api, places, x);
      assert recips == init + [x];
      if api(n, x).Ok? && api(n, x).value != "" {
        places := places + [n];
      }
    }
  }

  lemma ReceiptsExactly(recips: seq<string>, api: Api)
    ensures TheReceipts(recips, api, Receipts(recips, api))
  {
    hide ReceiptsAt, Receipts, Receipted;
    var places := ReceiptsPicked(recips, api);
  }

  lemma ReasonsPush(recips: seq<string>, api: Api, x: string)
    ensures var answer := api(|recips|, x);
            && Reasons(recips + [x], api)
               == (if answer.Err? then Reasons(recips, api) + [answer.error] else Reasons(recips, api))
            && Failed(recips + [x], api) == (if answer.Err? then Failed(recips, api) + [x] else Failed(recips, api))
  {
    assert (recips + [x])[..|recips|] == recips;
  }

  predicate FirstRefusal(recips: seq<string>, api: Api, i: nat, reason: string) {
    && i < |recips| && api(i, recips[i]) == Err(reason)
    && forall j :: 0 <= j < i ==> api(j, recips[j]).Ok?
  }

  lemma RefusalMore(recips: seq<string>, api: Api, i: nat, reason: string, x: string)
    requires FirstRefusal(recips, api, i, reason)
    ensures FirstRefusal(recips + [x], api, i, reason)
  {
    assert forall j :: 0 <= j < |recips| ==> (recips + [x])[j] == recips[j];
  }

  /** The reason shown is that of the first recipient the node refused. */
  lemma {:induction false} FirstReason(recips: seq<string>, api: Api) returns (i: nat)
    requires Failed(recips, api) != []
    ensures FirstRefusal(recips, api, i, Reasons(recips, api)[0])
  {
    var n := |recips| - 1;
    var init := recips[..n];
    assert recips == init + [recips[n]];
    ReasonsPush(init, api, recips[n]);
    hide Failed, Reasons;
    if Failed(init, api) != [] {
      hide FirstRefusal;
      i := FirstReason(init, api);
      RefusalMore(init, api, i, Reasons(init, api)[0], recips[n]);
    } else {
      i := n;
      NoneFailed(init, api);
      assert forall j :: 0 <= j < n ==> init[j] == recips[j];
    }
  }

  lemma {:induction false} NoneFailed(recips: seq<string>, api: Api)
    requires Failed(recips, api) == []
    ensures forall j :: 0 <= j < |recips| ==> api(j, recips[j]).Ok?
  {
    if recips != [] {
      var n := |recips| - 1;
      NoneFailed(recips[..n], api);
      assert forall j :: 0 <= j < n ==> recips[..n][j] == recips[j];
    }
  }

  /** Every message of the mailbox, as often as it occurs. */
  function Messages(threads: seq<Thread>): multiset<Msg> {
    if threads == [] then multiset{} else Messages(threads[..|threads| - 1]) + multiset(threads[|threads| - 1].msgs)
  }

  lemma MessagesPush(threads: seq<Thread>, t: Thread)
    ensures Messages(threads + [t]) == Messages(threads) + multiset(t.msgs)
  {
    assert (threads + [t])[..|threads|] == threads;
  }

  lemma Regroup<T>(a: multiset<T>, b: multiset<T>, c: multiset<T>)
    ensures a + b + c == a + (b + c)
  {
  }

  lemma MessagesOfOne(t: Thread)
    ensures Messages([t] + []) == multiset(t.msgs) + Messages([])
  {
    assert ([t] + [])[..0] == [];
  }

  lemma {:induction false} MessagesInFront(t: Thread, threads: seq<Thread>)
    ensures Messages([t] + threads) == multiset(t.msgs) + Messages(threads)
  {
    hide *;
    if threads == [] {
      MessagesOfOne(t);
    } else {
      var n := |threads| - 1;
      MessagesInFront(t, threads[..n]);
      assert [t] + threads == [t] + threads[..n] + [threads[n]];
      assert threads == threads[..n] + [threads[n]];
      MessagesPush([t] + threads[..n], threads[n]);
      MessagesPush(threads[..n], threads[n]);
      Regroup(multiset(t.msgs), Messages(threads[..n]), multiset(threads[n].msgs));
    }
  }

  lemma AddBoth<T>(a: multiset<T>, x: multiset<T>, b: multiset<T>, y: multiset<T>, more: multiset<T>)
    requires a + x == b + y
    ensures a + more + x == b + more + y
  {
    assert a + more + x == a + x + more && b + more + y == b + y + more;
  }

  lemma {:induction false} MessagesUpdate(threads: seq<Thread>, i: nat, t: Thread)
    requires i < |threads|
    ensures Messages(threads[i := t]) + multiset(threads[i].msgs) == Messages(threads) + multiset(t.msgs)
  {
    hide Messages;
    var n := |threads| - 1;
    var init, last := threads[..n], threads[n];
    assert threads == init + [last];
    MessagesPush(init, last);
    if i == n {
      assert threads[i := t] == init + [t];
      MessagesPush(init, t);
    } else {
      assert threads[i := t] == init[i := t] + [last];
      MessagesUpdate(init, i, t);
      MessagesPush(init[i := t], last);
      AddBoth(Messages(init[i := t]), multiset(init[i].msgs), Messages(init), multiset(t.msgs), multiset(last.msgs));
    }
  }

  /** The content of the thread that saving the draft rewrites, if it rewrites one. */
  function Rewritten(box: Box, d: Draft): multiset<Msg> {
    var i := IndexOf(box.threads, d.threadId);
    if i.Some? then multiset(box.threads[i.value].msgs) else multiset{}
  }

  predicate KeptAlone(threads: seq<Thread>, m: Msg) { exists i :: 0 <= i < |threads| && threads[i].msgs == [m] }

  /** Saving a draft adds one message, alone in its thread, and drops only what the same draft held before. */
  lemma UpsertedOnce(box: Box, d: Draft, text: string)
    ensures Messages(Upserted(box, d, text).threads) + Rewritten(box, d)
         == Messages(box.threads) + multiset{DraftMsg(d, text)}
    ensures KeptAlone(Upserted(box, d, text).threads, DraftMsg(d, text))
  {
    hide Messages, DraftMsg;
    var i, after, m := IndexOf(box.threads, d.threadId), Upserted(box, d, text).threads, DraftMsg(d, text);
    assert multiset([m]) == multiset{m};
    if i.Some? {
      MessagesUpdate(box.threads, i.value, after[i.value]);
      assert after[i.value].msgs == [m];
    } else {
      MessagesInFront(after[0], box.threads);
      assert after[0].msgs == [m];
    }
  }

  /** Filing a record adds one message to the mailbox and drops none. */
  lemma RecordedOnce(box: Box, d: Draft, msg: Msg)
    ensures Messages(Recorded(box, d, msg).threads) == Messages(box.threads) + multiset{msg}
  {
    hide Messages;
    var i, after := IndexOf(box.threads, d.replyThread), Recorded(box, d, msg).threads;
    if i.Some? {
      MessagesUpdate(box.threads, i.value, after[i.value]);
      RecordAdds(Messages(after), Messages(box.threads), box.threads[i.value].msgs, msg);
    } else {
      MessagesInFront(after[0], box.threads);
      assert multiset([msg]) == multiset{msg};
    }
  }

  lemma RecordAdds(after: multiset<Msg>, before: multiset<Msg>, msgs: seq<Msg>, msg: Msg)
    requires after + multiset(msgs) == before + multiset(msgs + [msg])
    ensures after == before + multiset{msg}
  {
    assert multiset(msgs + [msg]) == multiset(msgs) + multiset{msg};
    forall m: Msg
      ensures after[m] == (before + multiset{msg})[m]
    {
      assert (after + multiset(msgs))[m] == (before + multiset(msgs + [msg]))[m];
    }
  }

  /** The draft of the failed attempts is a new thread in front. */
  lemma RemainderInFront(box: Box, d: Draft, text: string, api: Api)
    ensures var after := Upserted(box, Remainder(d, api), text).threads;
            after != [] && after[0].folder.InDrafts? && after[0].msgs == [DraftMsg(Remainder(d, api), text)]
    ensures Rewritten(box, Remainder(d, api)) == multiset{}
  {
    hide DraftMsg, Join, Failed;
    assert IndexOf(box.threads, None).None?;
  }

  /** Where the typed recipients end up: in the sent record, or in a draft that is kept. */
  ghost predicate Conserved(box: Box, d: Draft, text: string, api: Api, after: Box, r: Report) {
    var recips, sent := SplitRecips(d.to), SentMsg(d, text, api);
    match r
    case Delivered => sent.to == recips && Messages(after.threads) == Messages(box.threads) + multiset{sent}
    case PartlySent(_) =>
      var kept := DraftMsg(Remainder(d, api), text);
      && kept.to == Failed(recips, api) && kept.to != []
      && multiset(sent.to) + multiset(kept.to) == multiset(recips)
      && Messages(after.threads) == Messages(box.threads) + multiset{sent} + multiset{kept}
      && after.threads != [] && after.threads[0].folder.InDrafts? && after.threads[0].msgs == [kept]
    case _ =>
      var kept := DraftMsg(d, text);
      && kept.to == recips && kept.attach == d.attach && KeptAlone(after.threads, kept)
      && Messages(after.threads) + Rewritten(box, d) == Messages(box.threads) + multiset{kept}
  }

  /**
   * Conservation, whatever the node answered to whom: no message of the mailbox is lost or repeated, and the
   * recipients recorded as sent and those of the kept draft are together exactly the recipients typed.  On a partial
   * failure a new draft in front holds only the failed attempts, in order; when nothing went out, for whatever reason,
   * a draft holds all of them, and at most its own earlier version made way for it.
   */
  lemma NobodyLostOrRepeated(box: Box, d: Draft, text: string, api: Api)
    ensures var (after, r) := Committed(box, d, text, api);
            && Conserved(box, d, text, api, after, r)
            && (r.Refused? <==> d.attach != [])
            && (r.AllFailed? ==> Failed(SplitRecips(d.to), api) == SplitRecips(d.to) != [])
  {
    var recips, sent := SplitRecips(d.to), SentMsg(d, text, api);
    DraftTo(d, text);
    DraftTo(Remainder(d, api), text);
    hide SplitRecips, Join, Recorded, Upserted, Messages, KeptAlone, Rewritten, DraftMsg, Remainder, Sent, Failed;
    var recorded := Recorded(box, d, sent);
    RemainderReadsBack(d, api);
    SentAndFailed(recips, api);
    AllOrNone(recips, api);
    UpsertedOnce(box, d, text);
    RecordedOnce(box, d, sent);
    UpsertedOnce(recorded, Remainder(d, api), text);
    RemainderInFront(recorded, d, text, api);
  }

  lemma DraftTo(d: Draft, text: string)
    ensures DraftMsg(d, text).to == SplitRecips(d.to) && DraftMsg(d, text).attach == d.attach
  {
  }

  lemma {:induction false} AllOrNone(recips: seq<string>, api: Api)
    ensures Failed(recips, api) == [] ==> Sent(recips, api) == recips
    ensures Sent(recips, api) == [] ==> Failed(recips, api) == recips
  {
    if recips != [] {
      AllOrNone(recips[..|recips| - 1], api);
    }
  }

  // --- where it is filed ---------------------------------------------------------------------------------------

  /** Thread i is the first of this id. */
  predicate FirstOf(threads: seq<Thread>, id: nat, i: nat) {
    i < |threads| && threads[i].id == id && forall j :: 0 <= j < i ==> threads[j].id != id
  }

  predicate HasThread(threads: seq<Thread>, id: Option<nat>) {
    id.Some? && exists i :: 0 <= i < |threads| && threads[i].id == id.value
  }

  /** Thread i alone is another, and this one. */
  predicate OnlyChanged(before: seq<Thread>, i: nat, t: Thread, after: seq<Thread>) {
    && i < |before| == |after| && after[i] == t
    && forall j :: 0 <= j < |before| && j != i ==> after[j] == before[j]
  }

  /**
   * The record stands at the end of the first thread of the id replied to, which is read now and otherwise as it was;
   * or, without such a thread, in a new sent thread of the draft's subject in front.  Nothing else is touched.
   */
  ghost predicate Placed(before: seq<Thread>, d: Draft, m: Msg, after: seq<Thread>) {
    if HasThread(before, d.replyThread) then
      exists i: nat :: FirstOf(before, d.replyThread.value, i)
                  && OnlyChanged(before, i, Thread(before[i].id, before[i].subject, before[i].folder, true,
                                                   before[i].msgs + [m]), after)
    else
      && after != [] && after[1..] == before
      && after[0].folder.InSent? && after[0].read && after[0].msgs == [m]
      && after[0].subject == (if d.subject == "" then "(no subject)" else d.subject)
  }

  /** The draft's own thread holds it alone, under its subject; or, without one, a new thread in front does. */
  ghost predicate Saved(before: seq<Thread>, d: Draft, m: Msg, after: seq<Thread>) {
    var title := if d.subject == "" then "(no subject)" else d.subject;
    if HasThread(before, d.threadId) then
      exists i: nat :: FirstOf(before, d.threadId.value, i)
                  && OnlyChanged(before, i, Thread(before[i].id, title, before[i].folder, before[i].read, [m]), after)
    else
      && after != [] && after[1..] == before
      && after[0].folder.InDrafts? && after[0].read && after[0].msgs == [m] && after[0].subject == title
  }

  /** A record says what went out: plain text, no attachments, to those the node accepted for, with its receipts. */
  ghost predicate IsRecord(d: Draft, text: string, api: Api, m: Msg) {
    && ThoseAnswered(SplitRecips(d.to), api, true, m.to) && TheReceipts(SplitRecips(d.to), api, m.nodeIds)
    && m.body == text && m.text == text && !m.html && m.attach == []
  }

  /** A saved draft keeps the formatted body and the attachments. */
  predicate IsDraft(d: Draft, text: string, m: Msg) {
    m.body == d.body && m.html && m.text == text && m.attach == d.attach && m.nodeIds == []
  }

  lemma RecordPlaced(box: Box, d: Draft, m: Msg)
    ensures Placed(box.threads, d, m, Recorded(box, d, m).threads)
  {
    var i := IndexOf(box.threads, d.replyThread);
    if i.Some? {
      assert FirstOf(box.threads, d.replyThread.value, i.value);
    }
  }

  lemma DraftSaved(box: Box, d: Draft, text: string)
    ensures Saved(box.threads, d, DraftMsg(d, text), Upserted(box, d, text).threads)
  {
    hide DraftMsg;
    var i := IndexOf(box.threads, d.threadId);
    if i.Some? {
      assert FirstOf(box.threads, d.threadId.value, i.value);
    }
  }

  lemma DraftFields(d: Draft, text: string)
    ensures IsDraft(d, text, DraftMsg(d, text)) && DraftMsg(d, text).to == SplitRecips(d.to)
  {
  }

  lemma RecordFields(d: Draft, text: string, api: Api)
    ensures IsRecord(d, text, api, SentMsg(d, text, api))
  {
    hide SplitRecips, ThoseAnswered, TheReceipts, Sent, Receipts;
    SentExactly(SplitRecips(d.to), api);
    ReceiptsExactly(SplitRecips(d.to), api);
  }

  /** Which threads the committed mailbox has, and what stands in them. */
  ghost predicate Filed(box: Box, d: Draft, text: string, api: Api, after: Box, r: Report) {
    var recips := SplitRecips(d.to);
    match r
    case Delivered => exists m :: IsRecord(d, text, api, m) && Placed(box.threads, d, m, after.threads)
    case PartlySent(reason) =>
      && (exists i: nat :: FirstRefusal(recips, api, i, reason))
      && after.threads != []
      && (exists m :: IsRecord(d, text, api, m) && Placed(box.threads, d, m, after.threads[1..]))
      && exists k :: IsDraft(d, text, k) && ThoseAnswered(recips, api, false, k.to)
                     && Saved(after.threads[1..], d.(threadId := None), k, after.threads)
    case _ =>
      && (r.AllFailed? ==> exists i: nat :: FirstRefusal(recips, api, i, r.reason))
      && exists k :: IsDraft(d, text, k) && k.to == recips && Saved(box.threads, d, k, after.threads)
  }

  /**
   * Where everything stands afterwards: the record of what went out in the thread replied to or in a new sent thread,
   * the draft of the rest in front, or the whole draft in its own thread; each as it was written, and no other thread
   * touched.
   */
  lemma CommittedFiled(box: Box, d: Draft, text: string, api: Api)
    ensures var (after, r) := Committed(box, d, text, api); Filed(box, d, text, api, after, r)
    ensures var r := Committed(box, d, text, api).1;
            var recips := SplitRecips(d.to);
            && (r.Delivered? <==>
                  d.attach == [] && recips != [] && forall i :: 0 <= i < |recips| ==> api(i, recips[i]).Ok?)
            && (r.AllFailed? <==>
                  d.attach == [] && recips != [] && forall i :: 0 <= i < |recips| ==> api(i, recips[i]).Err?)
  {
    hide *;
    CommittedAnswers(SplitRecips(d.to), api);
    CommittedWhen(box, d, text, api);
    CommittedCases(box, d, text, api);
  }

  lemma CommittedAnswers(recips: seq<string>, api: Api)
    ensures Failed(recips, api) == [] <==> forall i :: 0 <= i < |recips| ==> api(i, recips[i]).Ok?
    ensures Sent(recips, api) == [] <==> forall i :: 0 <= i < |recips| ==> api(i, recips[i]).Err?
    ensures recips != [] ==> Sent(recips, api) != [] || Failed(recips, api) != []
  {
    AnyAnswered(recips, api, true);
    AnyAnswered(recips, api, false);
    hide Sent, Failed;
    if recips != [] {
      assert api(0, recips[0]).Ok? || api(0, recips[0]).Err?;
    }
  }

  lemma AnyAnswered(recips: seq<string>, api: Api, accepted: bool)
    ensures Answered(recips, api, accepted) == [] <==>
              forall i :: 0 <= i < |recips| ==> api(i, recips[i]).Ok? != accepted
  {
    hide Sent, Failed, Answered;
    var places := AnsweredPicked(recips, api, accepted);
    if places != [] {
      assert places[0] in places && api(places[0], recips[places[0]]).Ok? == accepted;
    }
  }

  lemma CommittedWhen(box: Box, d: Draft, text: string, api: Api)
    ensures var recips := SplitRecips(d.to);
            var sent, failed := Sent(recips, api), Failed(recips, api);
            var recorded := Recorded(box, d, SentMsg(d, text, api));
            && (failed != [] ==> |Reasons(recips, api)| > 0)
            && Committed(box, d, text, api)
               == if d.attach != [] then (Upserted(box, d, text), Refused)
                  else if sent == [] && failed == [] then (Upserted(box, d, text), Crashed)
                  else if sent == [] then (Upserted(box, d, text), AllFailed(Reasons(recips, api)[0]))
                  else if failed == [] then (recorded, Delivered)
                  else (Upserted(recorded, Remainder(d, api), text), PartlySent(Reasons(recips, api)[0]))
  {
    hide SplitRecips, Sent, Failed, Upserted, Recorded, Remainder, SentMsg;
  }

  lemma CommittedCases(box: Box, d: Draft, text: string, api: Api)
    ensures var (after, r) := Committed(box, d, text, api); Filed(box, d, text, api, after, r)
  {
    hide *;
    var recips, sent := SplitRecips(d.to), SentMsg(d, text, api);
    CommittedWhen(box, d, text, api);
    var (after, r) := Committed(box, d, text, api);
    if d.attach == [] && Failed(recips, api) != [] {
      ReasonIsFirst(recips, api);
    }
    if d.attach == [] && Sent(recips, api) != [] {
      RecordFields(d, text, api);
      RecordPlaced(box, d, sent);
      if Failed(recips, api) == [] {
        FiledDelivered(box, d, text, api, after, sent);
      } else {
        RestSaved(Recorded(box, d, sent), d, text, api);
        FiledPartly(box, d, text, api, after, r.reason, sent, DraftMsg(Remainder(d, api), text));
      }
    } else {
      DraftFields(d, text);
      DraftSaved(box, d, text);
      FiledKept(box, d, text, api, after, r, DraftMsg(d, text));
    }
  }

  lemma FiledDelivered(box: Box, d: Draft, text: string, api: Api, after: Box, m: Msg)
    requires IsRecord(d, text, api, m) && Placed(box.threads, d, m, after.threads)
    ensures Filed(box, d, text, api, after, Delivered)
  {
    hide IsRecord, Placed;
  }

  lemma FiledPartly(box: Box, d: Draft, text: string, api: Api, after: Box, reason: string, m: Msg, k: Msg)
    requires exists i: nat :: FirstRefusal(SplitRecips(d.to), api, i, reason)
    requires after.threads != [] && IsRecord(d, text, api, m) && Placed(box.threads, d, m, after.threads[1..])
    requires IsDraft(d, text, k) && ThoseAnswered(SplitRecips(d.to), api, false, k.to)
    requires Saved(after.threads[1..], d.(threadId := None), k, after.threads)
    ensures Filed(box, d, text, api, after, PartlySent(reason))
  {
    hide IsRecord, Placed, IsDraft, ThoseAnswered, Saved, FirstRefusal, SplitRecips;
  }

  lemma FiledKept(box: Box, d: Draft, text: string, api: Api, after: Box, r: Report, k: Msg)
    requires !r.Delivered? && !r.PartlySent?
    requires r.AllFailed? ==> exists i: nat :: FirstRefusal(SplitRecips(d.to), api, i, r.reason)
    requires IsDraft(d, text, k) && k.to == SplitRecips(d.to) && Saved(box.threads, d, k, after.threads)
    ensures Filed(box, d, text, api, after, r)
  {
    hide IsDraft, Saved, FirstRefusal, SplitRecips;
  }

  lemma ReasonIsFirst(recips: seq<string>, api: Api)
    requires Failed(recips, api) != []
    ensures exists i: nat :: FirstRefusal(recips, api, i, Reasons(recips, api)[0])
  {
    hide Failed, Reasons, FirstRefusal;
    var i := FirstReason(recips, api);
  }

  /** The draft of the rest is a new thread, in front. */
  lemma RestSaved(box: Box, d: Draft, text: string, api: Api)
    ensures var after, k := Upserted(box, Remainder(d, api), text).threads, DraftMsg(Remainder(d, api), text);
            && IsDraft(d, text, k) && ThoseAnswered(SplitRecips(d.to), api, false, k.to)
            && after != [] && after[1..] == box.threads && Saved(box.threads, d.(threadId := None), k, after)
  {
    var rest := Remainder(d, api);
    RemainderReadsBack(d, api);
    SentExactly(SplitRecips(d.to), api);
    DraftFields(rest, text);
    DraftSaved(box, rest, text);
    hide SplitRecips, Failed, Sent, ThoseAnswered, Join, DraftMsg, IndexOf;
    RemainderInFront(box, d, text, api);
  }

  /** Thread ids are distinct and below the counter. */
  predicate IdsOk(box: Box) {
    && (forall i :: 0 <= i < |box.threads| ==> box.threads[i].id < box.next)
    && forall i, j :: 0 <= i < j < |box.threads| ==> box.threads[i].id != box.threads[j].id
  }

  /** Committing keeps them so: every new thread has an id of its own. */
  lemma CommittedKeepsIds(box: Box, d: Draft, text: string, api: Api)
    requires IdsOk(box)
    ensures IdsOk(Committed(box, d, text, api).0)
  {
    CommittedWhen(box, d, text, api);
    hide Committed, Sent, Failed, Reasons, SplitRecips, DraftMsg, SentMsg, Remainder;
    UpsertedKeepsIds(box, d, text);
    RecordedKeepsIds(box, d, SentMsg(d, text, api));
    UpsertedKeepsIds(Recorded(box, d, SentMsg(d, text, api)), Remainder(d, api), text);
    hide Upserted, Recorded, IdsOk;
  }

  lemma UpsertedKeepsIds(box: Box, d: Draft, text: string)
    ensures IdsOk(box) ==> IdsOk(Upserted(box, d, text))
  {
    hide DraftMsg, Titled;
    if IdsOk(box) && IndexOf(box.threads, d.threadId).None? {
      var after := Upserted(box, d, text).threads;
      assert forall i :: 0 < i < |after| ==> after[i] == box.threads[i - 1];
    }
  }

  lemma RecordedKeepsIds(box: Box, d: Draft, m: Msg)
    ensures IdsOk(box) ==> IdsOk(Recorded(box, d, m))
  {
    hide Titled;
    if IdsOk(box) && IndexOf(box.threads, d.replyThread).None? {
      var after := Recorded(box, d, m).threads;
      assert forall i :: 0 < i < |after| ==> after[i] == box.threads[i - 1];
    }
  }

  /** The call rejects exactly for a draft without attachments and without recipients; the draft is kept before. */
  lemma CrashesExactly(box: Box, d: Draft, text: string, api: Api)
    ensures Committed(box, d, text, api).1.Crashed? <==> d.attach == [] && SplitRecips(d.to) == []
    ensures Committed(box, d, text, api).1.Crashed? ==> Committed(box, d, text, api).0 == Upserted(box, d, text)
  {
    hide SplitRecips;
    AllOrNone(SplitRecips(d.to), api);
  }

  // --- in place --------------------------------------------------------------------------------------------------

  class MailThread {
    const id: nat
    var subject: string
    var folder: Folder
    var read: bool
    var msgs: seq<Msg>

    function Value(): Thread
      reads this
    {
      Thread(id, subject, folder, read, msgs)
    }

    constructor (t: Thread)
      ensures Value() == t
    {
      id, subject, folder, read, msgs := t.id, t.subject, t.folder, t.read, t.msgs;
    }
  }

  ghost function ValuesOf(ts: seq<MailThread>): (vs: seq<Thread>)
    reads ts
    ensures |vs| == |ts| && forall i :: 0 <= i < |ts| ==> vs[i] == ts[i].Value()
  {
    if ts == [] then [] else ValuesOf(ts[..|ts| - 1]) + [ts[|ts| - 1].Value()]
  }

  lemma ValuesInFront(t: MailThread, ts: seq<MailThread>)
    ensures ValuesOf([t] + ts) == [t.Value()] + ValuesOf(ts)
  {
    hide ValuesOf;
    assert [t] + ts != [] && ([t] + ts)[0] == t;
    assert forall i :: 0 <= i < |ts| ==> ([t] + ts)[i + 1] == ts[i];
  }

  ghost predicate Distinct(ts: seq<MailThread>) { forall i, j :: 0 <= i < j < |ts| ==> ts[i] != ts[j] }

  lemma DistinctInFront(t: MailThread, ts: seq<MailThread>)
    requires Distinct(ts) && t !in ts
    ensures Distinct([t] + ts)
  {
    assert forall i :: 0 < i < |[t] + ts| ==> ([t] + ts)[i] == ts[i - 1];
  }

  class Mailbox {
    var threads: seq<MailThread>
    var next: nat

    ghost predicate Valid()
      reads this
    {
      Distinct(threads)
    }

    ghost function Value(): Box
      reads this, threads
    {
      Box(ValuesOf(threads), next)
    }

    method Find(id: Option<nat>) returns (i: Option<nat>)
      ensures i == IndexOf(Value().threads, id)
    {
      var k := 0;
      while k < |threads|
        invariant k <= |threads|
        invariant forall j :: 0 <= j < k ==> id != Some(threads[j].id)
      {
        if id == Some(threads[k].id) {
          return Some(k);
        }
        k := k + 1;
      }
      i := None;
    }

    /** `unshift`. */
    method PutFirst(t: Thread)
      requires Valid() && t.id == next
      modifies this
      ensures Valid() && |threads| == |old(threads)| + 1 && threads[1..] == old(threads) && fresh(threads[0])
      ensures Value() == Box([t] + old(Value()).threads, old(next) + 1)
    {
      hide ValuesOf, Distinct;
      var o := new MailThread(t);
      DistinctInFront(o, threads);
      ValuesInFront(o, threads);
      threads := [o] + threads;
      next := next + 1;
    }

    /** A new subject and a single message for one thread. */
    method Rewrite(i: nat, subject: string, msg: Msg)
      requires Valid() && i < |threads|
      modifies threads[i]
      ensures Valid()
      ensures var before := old(Value());
              Value() == before.(threads := before.threads[i := before.threads[i].(subject := subject, msgs := [msg])])
    {
      hide ValuesOf;
      ghost var before := Value().threads;
      var t := threads[i];
      t.subject, t.msgs := subject, [msg];
      assert Value().threads == before[i := t.Value()];
    }

    method UpsertDraft(draft: ComposeDraft, text: string)
      requires Valid()
      modifies this, threads, draft
      ensures Valid() && Value() == Upserted(old(Value()), old(draft.Value()), text)
      ensures forall t :: t in threads ==> t in old(threads) || fresh(t)
      ensures draft.Value().(threadId := None) == old(draft.Value()).(threadId := None)
    {
      hide SplitRecips, ValuesOf, Distinct, DraftMsg, Titled;
      var msg := DraftMsg(draft.Value(), text);
      var i := Find(draft.threadId);
      if i.Some? {
        Rewrite(i.value, Titled(draft.subject), msg);
        return;
      }
      draft.threadId := Some(next);
      PutFirst(Thread(next, Titled(draft.subject), InDrafts, true, [msg]));
    }

    method Record(draft: ComposeDraft, msg: Msg)
      requires Valid()
      modifies this, threads
      ensures Valid() && Value() == Recorded(old(Value()), draft.Value(), msg)
      ensures forall t :: t in threads ==> t in old(threads) || fresh(t)
    {
      hide ValuesOf, Titled;
      var i := Find(draft.replyThread);
      ghost var before := Value().threads;
      if i.Some? {
        var t := threads[i.value];
        t.msgs, t.read := t.msgs + [msg], true;
        assert Value().threads == before[i.value := t.Value()];
        return;
      }
      PutFirst(Thread(next, Titled(draft.subject), InSent, true, [msg]));
    }
  }

  class ComposeDraft {
    var to: string
    var subject: string
    var body: string
    var text: string
    var attach: seq<string>
    var threadId: Option<nat>
    var replyThread: Option<nat>

    function Value(): Draft
      reads this
    {
      Draft(to, subject, body, text, attach, threadId, replyThread)
    }

    constructor (d: Draft)
      ensures Value() == d
    {
      to, subject, body, text, attach, threadId, replyThread :=
        d.to, d.subject, d.body, d.text, d.attach, d.threadId, d.replyThread;
    }
  }

  /** One POST per recipient, in order. */
  method SendEach(recips: seq<string>, api: Api)
    returns (sent: seq<string>, receipts: seq<string>, failed: seq<string>, reasons: seq<string>)
    ensures sent == Sent(recips, api) && receipts == Receipts(recips, api)
    ensures failed == Failed(recips, api) && reasons == Reasons(recips, api)
  {
    sent, receipts, failed, reasons := [], [], [], [];
    for i := 0 to |recips|
      invariant sent == Sent(recips[..i], api) && receipts == Receipts(recips[..i], api)
      invariant failed == Failed(recips[..i], api) && reasons == Reasons(recips[..i], api)
    {
      assert recips[..i + 1][..i] == recips[..i];
      match api(i, recips[i]) {
        case Ok(receipt) =>
          sent := sent + [recips[i]];
          if receipt != "" {
            receipts := receipts + [receipt];
          }
        case Err(reason) =>
          failed, reasons := failed + [recips[i]], reasons + [reason];
      }
    }
    assert recips[..|recips|] == recips;
  }

  /** Record what went out; keep a draft of the rest, if there is any. */
  method RecordAndKeep(mail: Mailbox, draft: ComposeDraft, msg: Msg, text: string, failed: seq<string>)
    requires mail.Valid()
    modifies mail, mail.threads
    ensures mail.Valid()
    ensures var recorded := Recorded(old(mail.Value()), old(draft.Value()), msg);
            mail.Value() == if failed == [] then recorded
                            else Upserted(recorded, old(draft.Value()).(threadId := None, to := Join(failed)), text)
  {
    hide Upserted, Recorded, Join;
    ghost var before := mail.threads;
    var d := draft.Value();
    mail.Record(draft, msg);
    if failed != [] {
      var rest := new ComposeDraft(d.(threadId := None, to := Join(failed)));
      assert forall i :: 0 <= i < |mail.threads| ==> mail.threads[i] in before || fresh(mail.threads[i]);
      mail.UpsertDraft(rest, text);
    }
  }

  /** `strip` removes markup from a body. */
  method CommitSendReal(mail: Mailbox, draft: ComposeDraft, api: Api, strip: string -> string) returns (r: Report)
    requires mail.Valid()
    modifies mail, mail.threads, draft
    ensures mail.Valid()
    ensures var text := if old(draft.text) != "" then old(draft.text) else strip(old(draft.body));
            (mail.Value(), r) == Committed(old(mail.Value()), old(draft.Value()), text, api)
  {
    hide SplitRecips, Sent, Failed, Reasons, Receipts, Upserted, Recorded, Join;
    var recips := SplitRecips(draft.to);
    var text := if draft.text != "" then draft.text else strip(draft.body);
    if draft.attach != [] {
      mail.UpsertDraft(draft, text);
      return Refused;
    }
    var sent, receipts, failed, reasons := SendEach(recips, api);
    if sent == [] {
      mail.UpsertDraft(draft, text);
      return if failed == [] then Crashed else AllFailed(reasons[0]);
    }
    RecordAndKeep(mail, draft, Msg(sent, text, false, text, [], receipts), text, failed);
    r := if failed == [] then Delivered else PartlySent(reasons[0]);
  }
}
