/**
 Bounded reads of the client API: fragments of a long JSON text by octet offset,
 and pages of a list by a cursor bound to that list.
 */
module Reading {
  import opened Wrappers
  import opened Utf8

  // ---------------------------------------------------------------- fragments

  datatype Fragment = Fragment(text: seq<byte>, nextOffset: nat, totalBytes: nat, complete: bool)

  datatype FragmentError = InvalidBounds | PointerNotFound | InvalidOffset | LimitTooSmall

  /** The character that starts at an octet offset, if one does; the end counts as one. */
  function CharIndex(text: string, offset: nat): (k: Option<nat>)
    ensures k.Some? ==> k.value <= |text|
    decreases |text|
  {
    if offset == 0 then Some(0)
    else if text == [] || offset < Width(text[0]) then None
    else
      var k := CharIndex(text[1..], offset - Width(text[0]));
      if k.Some? then Some(k.value + 1) else None
  }

  /** How many whole characters fit into `limit` octets. */
  function Fits(text: string, limit: nat): (n: nat)
    ensures n <= |text|
    decreases |text|
  {
    if text == [] || Width(text[0]) > limit then 0 else 1 + Fits(text[1..], limit - Width(text[0]))
  }

  predicate AcceptedLimit(limit: nat) { 1 <= limit <= 32768 }

  /** The fragment in terms of characters: as many whole ones as fit, from the one at `offset`. */
  function FragmentOf(text: string, offset: nat, limit: nat): (r: Result<Fragment, FragmentError>) {
    var k := CharIndex(text, offset);
    if !AcceptedLimit(limit) then Err(InvalidBounds)
    else if k.None? then Err(InvalidOffset)
    else FragmentFrom(text, k.value, offset, limit)
  }

  function FragmentFrom(text: string, k: nat, offset: nat, limit: nat): (r: Result<Fragment, FragmentError>)
    requires k <= |text|
  {
    var n := Fits(text[k..], limit);
    var piece := Encode(text[k..k + n]);
    if n == 0 && k < |text| then Err(LimitTooSmall)
    else Ok(Fragment(piece, offset + Size(text[k..k + n]), Size(text), k + n == |text|))
  }

  lemma {:induction false} CharIndexOfOffset(text: string, k: nat)
    requires k <= |text|
    ensures CharIndex(text, OffsetOf(text, k)) == Some(k)
    decreases k
  {
    if k > 0 {
      assert text[..k][1..] == text[1..][..k - 1];
      CharIndexOfOffset(text[1..], k - 1);
    }
  }

  lemma {:induction false} OffsetOfCharIndex(text: string, offset: nat)
    requires CharIndex(text, offset).Some?
    ensures OffsetOf(text, CharIndex(text, offset).value) == offset
    decreases |text|
  {
    if offset > 0 {
      var k := CharIndex(text, offset).value;
      OffsetOfCharIndex(text[1..], offset - Width(text[0]));
      assert text[..k][1..] == text[1..][..k - 1];
    }
  }

  /** `Fits` is the only count that stays within the limit and leaves no room for one more. */
  lemma {:induction false} FitsIsMaximal(text: string, limit: nat, n: nat)
    requires n <= |text| && OffsetOf(text, n) <= limit
    requires n < |text| ==> OffsetOf(text, n + 1) > limit
    ensures n == Fits(text, limit)
    decreases n
  {
    if n == 0 {
      if text != [] {
        assert text[..1][1..] == [];
      }
    } else {
      assert text[..n][1..] == text[1..][..n - 1];
      if n < |text| {
        assert text[..n + 1][1..] == text[1..][..n];
      }
      FitsIsMaximal(text[1..], limit - Width(text[0]), n - 1);
    }
  }

  lemma {:induction false} FitsWithin(text: string, limit: nat)
    ensures OffsetOf(text, Fits(text, limit)) <= limit
    decreases |text|
  {
    var n := Fits(text, limit);
    if n > 0 {
      assert text[..n][1..] == text[1..][..n - 1];
      FitsWithin(text[1..], limit - Width(text[0]));
    }
  }

  /** The octet-level read, backing up from the limit to a character boundary. */
  method JsonFragment(pointer: string, selected: Option<string>, offset: nat, limit: nat)
    returns (r: Result<Fragment, FragmentError>)
    ensures r ==
      if !AcceptedLimit(limit) || Size(pointer) > 1024 then Err(InvalidBounds)
      else if selected.None? then Err(PointerNotFound)
      else FragmentOf(selected.value, offset, limit)
    ensures r == Err(InvalidBounds) <==> limit == 0 || limit > 32768 || Size(pointer) > 1024
  {
    if !AcceptedLimit(limit) || Size(pointer) > 1024 {
      return Err(InvalidBounds);
    }
    if selected.None? {
      return Err(PointerNotFound);
    }
    var text := selected.value;
    var bytes := Encode(text);
    if offset > |bytes| || !IsCharBoundary(bytes, offset) {
      NoFragmentInside(text, offset, limit);
      return Err(InvalidOffset);
    }
    var last := if offset + limit < |bytes| then offset + limit else |bytes|;
    var end := BackUp(bytes, offset, last);
    BackedUpFragment(text, offset, limit, last, end);
    if end == offset && end < |bytes| {
      return Err(LimitTooSmall);
    }
    r := Ok(Fragment(bytes[offset..end], end, |bytes|, end == |bytes|));
  }

  /** The last character boundary at or before `last`. */
  method BackUp(bytes: seq<byte>, start: nat, last: nat) returns (end: nat)
    requires start <= last && IsCharBoundary(bytes, start)
    ensures start <= end <= last && IsCharBoundary(bytes, end)
    ensures forall i :: end < i <= last ==> !IsCharBoundary(bytes, i)
  {
    end := last;
    while !IsCharBoundary(bytes, end)
      invariant start <= end <= last
      invariant forall i :: end < i <= last ==> !IsCharBoundary(bytes, i)
      decreases end
    {
      end := end - 1;
    }
  }

  lemma OffsetsAreBoundaries(text: string, offset: nat)
    ensures CharIndex(text, offset).Some? <==> offset <= Size(text) && IsCharBoundary(Encode(text), offset)
  {
    if CharIndex(text, offset).Some? {
      OffsetOfCharIndex(text, offset);
      OffsetIsBoundary(text, CharIndex(text, offset).value);
    } else if IsCharBoundary(Encode(text), offset) {
      var k := BoundaryIsOffset(text, offset);
      CharIndexOfOffset(text, k);
    }
  }

  lemma NoFragmentInside(text: string, offset: nat, limit: nat)
    requires AcceptedLimit(limit) && (offset > Size(text) || !IsCharBoundary(Encode(text), offset))
    ensures FragmentOf(text, offset, limit) == Err(InvalidOffset)
  {
    OffsetsAreBoundaries(text, offset);
  }

  /** The octets up to the last boundary are the fragment in terms of characters. */
  lemma BackedUpFragment(text: string, offset: nat, limit: nat, last: nat, end: nat)
    requires AcceptedLimit(limit) && IsCharBoundary(Encode(text), offset) && offset <= end <= last <= Size(text)
    requires last == if offset + limit < Size(text) then offset + limit else Size(text)
    requires IsCharBoundary(Encode(text), end) && forall i :: end < i <= last ==> !IsCharBoundary(Encode(text), i)
    ensures FragmentOf(text, offset, limit) ==
      if end == offset && end < Size(text) then Err(LimitTooSmall)
      else Ok(Fragment(Encode(text)[offset..end], end, Size(text), end == Size(text)))
  {
    var k, m := BackedUp(text, offset, limit, last, end);
    FragmentBetween(text, offset, end, k, m, limit);
  }

  /** A fragment between two characters, in octets. */
  lemma FragmentBetween(text: string, offset: nat, end: nat, k: nat, m: nat, limit: nat)
    requires AcceptedLimit(limit) && k <= m <= |text| && OffsetOf(text, k) == offset && OffsetOf(text, m) == end
    requires Fits(text[k..], limit) == m - k
    ensures offset <= end <= |Encode(text)|
    ensures FragmentOf(text, offset, limit) ==
      if end == offset && end < Size(text) then Err(LimitTooSmall)
      else Ok(Fragment(Encode(text)[offset..end], end, Size(text), end == Size(text)))
  {
    CharIndexOfOffset(text, k);
    FragmentShape(text, k, offset, limit);
    Slice(text, k, m);
    EndIsLast(text, k);
    EndIsLast(text, m);
    OffsetsGrow(text, k, m);
  }

  lemma FragmentShape(text: string, k: nat, offset: nat, limit: nat)
    requires k <= |text|
    ensures
      var m := k + Fits(text[k..], limit);
      FragmentFrom(text, k, offset, limit) ==
        if m == k && k < |text| then Err(LimitTooSmall)
        else Ok(Fragment(Encode(text[k..m]), offset + Size(text[k..m]), Size(text), m == |text|))
  {
  }

  /** Backing up to the last boundary takes exactly the characters that fit. */
  lemma BackedUp(text: string, offset: nat, limit: nat, last: nat, end: nat) returns (k: nat, m: nat)
    requires IsCharBoundary(Encode(text), offset) && offset <= end <= last <= Size(text)
    requires last == if offset + limit < Size(text) then offset + limit else Size(text)
    requires IsCharBoundary(Encode(text), end) && forall i :: end < i <= last ==> !IsCharBoundary(Encode(text), i)
    ensures k <= m <= |text| && OffsetOf(text, k) == offset && OffsetOf(text, m) == end
    ensures Fits(text[k..], limit) == m - k
  {
    k, m := BoundedChars(text, offset, last, end);
    if m < |text| {
      OffsetIsBoundary(text, m + 1);
    }
    FitsBetween(text, k, m, limit);
  }

  lemma BoundedChars(text: string, offset: nat, last: nat, end: nat) returns (k: nat, m: nat)
    requires IsCharBoundary(Encode(text), offset) && offset <= end <= last <= Size(text)
    requires IsCharBoundary(Encode(text), end) && forall i :: end < i <= last ==> !IsCharBoundary(Encode(text), i)
    ensures k <= m <= |text| && OffsetOf(text, k) == offset && OffsetOf(text, m) == end
    ensures m < |text| ==> OffsetOf(text, m + 1) > last
  {
    k := BoundaryIsOffset(text, offset);
    m := BoundaryIsOffset(text, end);
    if m < k {
      OffsetsGrow(text, m, k);
    }
    if m < |text| {
      OffsetIsBoundary(text, m + 1);
      OffsetsGrow(text, m, m + 1);
    }
  }

  lemma FitsBetween(text: string, k: nat, m: nat, limit: nat)
    requires k <= m <= |text| && OffsetOf(text, m) <= OffsetOf(text, k) + limit
    requires m < |text| ==> OffsetOf(text, m + 1) > OffsetOf(text, k) + limit
    ensures Fits(text[k..], limit) == m - k
  {
    TailOffset(text, k, m);
    if m < |text| {
      TailOffset(text, k, m + 1);
    }
    FitsIsMaximal(text[k..], limit, m - k);
  }

  lemma TailOffset(text: string, k: nat, m: nat)
    requires k <= m <= |text|
    ensures OffsetOf(text[k..], m - k) == OffsetOf(text, m) - OffsetOf(text, k)
  {
    OffsetsGrow(text, k, m);
    assert text[k..][..m - k] == text[k..m];
  }

  lemma EndIsLast(text: string, k: nat)
    requires k <= |text|
    ensures OffsetOf(text, k) == Size(text) <==> k == |text|
  {
    OffsetsGrow(text, k, |text|);
    assert text[..|text|] == text;
  }

  lemma Middle(a: seq<byte>, b: seq<byte>, c: seq<byte>)
    ensures (a + b + c)[|a|..|a| + |b|] == b
  {
  }

  lemma EncodeParts(text: string, j: nat, k: nat)
    requires j <= k <= |text|
    ensures Encode(text) == Encode(text[..j]) + Encode(text[j..k]) + Encode(text[k..])
  {
    EncodeSplit(text, k);
    assert text[..k] == text[..j] + text[j..k];
    EncodeAppend(text[..j], text[j..k]);
  }

  lemma Slice(text: string, j: nat, k: nat)
    requires j <= k <= |text|
    ensures OffsetOf(text, j) <= OffsetOf(text, k) <= |Encode(text)|
    ensures Encode(text)[OffsetOf(text, j)..OffsetOf(text, k)] == Encode(text[j..k])
    ensures OffsetOf(text, k) == OffsetOf(text, j) + Size(text[j..k])
  {
    OffsetsGrow(text, j, k);
    EncodeParts(text, j, k);
    Middle(Encode(text[..j]), Encode(text[j..k]), Encode(text[k..]));
  }

  /** A read fails for lack of room exactly when the next character is wider than the limit. */
  lemma TooSmallExactly(text: string, offset: nat, limit: nat)
    requires AcceptedLimit(limit) && CharIndex(text, offset).Some?
    ensures FragmentOf(text, offset, limit) == Err(LimitTooSmall) <==>
      var k := CharIndex(text, offset).value;
      k < |text| && Width(text[k]) > limit
  {
  }

  /** A fragment is an exact slice from the offset, within the limit, complete exactly at the end. */
  lemma FragmentIsSlice(text: string, offset: nat, limit: nat) returns (end: nat)
    requires FragmentOf(text, offset, limit).Ok?
    ensures offset <= end <= |Encode(text)| && end <= offset + limit
    ensures FragmentOf(text, offset, limit) == Ok(Fragment(Encode(text)[offset..end], end, Size(text), end == Size(text)))
  {
    var k := CharIndex(text, offset).value;
    var m := k + Fits(text[k..], limit);
    end := OffsetOf(text, m);
    OffsetOfCharIndex(text, offset);
    EndWithinLimit(text, k, limit);
    FragmentBetween(text, offset, end, k, m, limit);
  }

  lemma EndWithinLimit(text: string, k: nat, limit: nat)
    requires k <= |text|
    ensures OffsetOf(text, k + Fits(text[k..], limit)) <= OffsetOf(text, k) + limit
  {
    WithinLimit(text, k, limit);
    OffsetsGrow(text, k, k + Fits(text[k..], limit));
  }

  lemma WithinLimit(text: string, k: nat, limit: nat)
    requires k <= |text|
    ensures Size(text[k..k + Fits(text[k..], limit)]) <= limit
  {
    FitsWithin(text[k..], limit);
    assert text[k..][..Fits(text[k..], limit)] == text[k..k + Fits(text[k..], limit)];
  }

  // ---------------------------------------------------------------- following next_offset

  datatype Reader = Reader(offset: nat, collected: seq<byte>, complete: bool)

  function ReadNext(text: string, reader: Reader, limit: nat): (r: Reader) {
    var fragment := FragmentOf(text, reader.offset, limit);
    if fragment.Err? || reader.complete then reader
    else Reader(fragment.value.nextOffset, reader.collected + fragment.value.text, fragment.value.complete)
  }

  function ReadAll(text: string, reader: Reader, limits: seq<nat>): (r: Reader)
    decreases |limits|
  {
    if limits == [] then reader else ReadAll(text, ReadNext(text, reader, limits[0]), limits[1..])
  }

  /** A reader holds the encoding of the first `k` characters. */
  predicate AtChar(text: string, reader: Reader, k: nat) {
    && k <= |text| && reader.offset == OffsetOf(text, k) && reader.collected == Encode(text[..k])
    && (reader.complete ==> k == |text|)
  }

  /** One read keeps whole characters and, unless done or refused, moves forward. */
  lemma ReadNextAdvances(text: string, reader: Reader, limit: nat, k: nat) returns (k': nat)
    requires AtChar(text, reader, k)
    ensures AtChar(text, ReadNext(text, reader, limit), k') && k <= k'
    ensures AcceptedLimit(limit) && limit >= 4 ==> k < k' || ReadNext(text, reader, limit).complete
  {
    k' := k;
    CharIndexOfOffset(text, k);
    var fragment := FragmentOf(text, reader.offset, limit);
    if fragment.Ok? && !reader.complete {
      k' := k + Fits(text[k..], limit);
      OffsetsGrow(text, k, k');
      assert text[..k'] == text[..k] + text[k..k'];
      EncodeAppend(text[..k], text[k..k']);
    } else if fragment.Err? {
      assert AcceptedLimit(limit) ==> Width(text[k]) > limit;
    }
  }

  /** How many of the limits any character fits into. */
  function Roomy(limits: seq<nat>): (n: nat)
    decreases |limits|
  {
    if limits == [] then 0
    else (if AcceptedLimit(limits[0]) && limits[0] >= 4 then 1 else 0) + Roomy(limits[1..])
  }

  lemma {:induction false} ReadAllFrom(text: string, reader: Reader, limits: seq<nat>, k: nat) returns (k': nat)
    requires AtChar(text, reader, k)
    ensures AtChar(text, ReadAll(text, reader, limits), k') && k <= k'
    ensures reader.complete ==> ReadAll(text, reader, limits).complete
    ensures ReadAll(text, reader, limits).complete || k' >= k + Roomy(limits)
    decreases |limits|
  {
    k' := k;
    if limits != [] {
      var j := ReadNextAdvances(text, reader, limits[0], k);
      k' := ReadAllFrom(text, ReadNext(text, reader, limits[0]), limits[1..], j);
    }
  }

  /**
   Following `next_offset` from zero under any limits collects a prefix of whole
   characters; when a fragment says complete it is the whole text, and one more
   roomy read than there are characters always gets there.
   */
  lemma FragmentsReassemble(text: string, limits: seq<nat>)
    ensures
      var end := ReadAll(text, Reader(0, [], false), limits);
      && (exists k :: 0 <= k <= |text| && end.collected == Encode(text[..k]))
      && (end.complete ==> end.collected == Encode(text))
      && (Roomy(limits) > |text| ==> end.complete)
  {
    assert text[..0] == [];
    var k := ReadAllFrom(text, Reader(0, [], false), limits, 0);
    assert text[..|text|] == text;
  }

  // ---------------------------------------------------------------- pages

  /** The digest of the serialised list, taken to be injective. */
  datatype Revision<T> = Revision(of: seq<T>)

  /** A cursor as the client sends it back; the offset may not parse. */
  datatype Cursor<T> = Malformed | Cursor(revision: Revision<T>, offset: Option<nat>)

  datatype Page<T> = Page(entries: seq<T>, revision: Revision<T>, total: nat, next: Option<Cursor<T>>)

  datatype PageError = LimitOutOfRange | InvalidCursor | RevisionChanged

  function PageOf<T(==)>(values: seq<T>, limit: nat, cursor: Option<Cursor<T>>): (r: Result<Page<T>, PageError>)
    ensures r.Ok? ==> |r.value.entries| <= limit && r.value.total == |values| && r.value.revision == Revision(values)
    ensures r.Ok? && r.value.next.Some? ==> |r.value.entries| == limit
  {
    var offset :=
      match cursor
      case None => Ok(0)
      case Some(Malformed) => Err(InvalidCursor)
      case Some(Cursor(revision, offset)) =>
        if revision != Revision(values) then Err(RevisionChanged)
        else if offset.None? || offset.value > |values| then Err(InvalidCursor)
        else Ok(offset.value);
    if !(1 <= limit <= 200) then Err(LimitOutOfRange)
    else if offset.Err? then Err(offset.error)
    else
      var end := if offset.value + limit < |values| then offset.value + limit else |values|;
      Ok(Page(values[offset.value..end], Revision(values), |values|,
              if end < |values| then Some(Cursor(Revision(values), Some(end))) else None))
  }

  // ---------------------------------------------------------------- following next_cursor

  datatype Walker<T> = Walker(cursor: Option<Cursor<T>>, collected: seq<T>, done: bool)

  function WalkNext<T(==)>(values: seq<T>, w: Walker<T>, limit: nat): (r: Walker<T>) {
    var page := PageOf(values, limit, w.cursor);
    if page.Err? || w.done then w
    else Walker(page.value.next, w.collected + page.value.entries, page.value.next.None?)
  }

  function WalkAll<T(==)>(values: seq<T>, w: Walker<T>, limits: seq<nat>): (r: Walker<T>)
    decreases |limits|
  {
    if limits == [] then w else WalkAll(values, WalkNext(values, w, limits[0]), limits[1..])
  }

  /** A walker holds the first `n` entries and its cursor points after them. */
  ghost predicate AtEntry<T>(values: seq<T>, w: Walker<T>, n: nat) {
    && n <= |values| && w.collected == values[..n]
    && (if w.done then n == |values|
        else w.cursor == Some(Cursor(Revision(values), Some(n))) || (w.cursor == None && n == 0))
  }

  lemma WalkNextAdvances<T>(values: seq<T>, w: Walker<T>, limit: nat, n: nat) returns (n': nat)
    requires AtEntry(values, w, n)
    ensures AtEntry(values, WalkNext(values, w, limit), n') && n <= n'
    ensures w.done ==> WalkNext(values, w, limit).done
    ensures 1 <= limit <= 200 ==> n < n' || WalkNext(values, w, limit).done
  {
    n' := n;
    var page := PageOf(values, limit, w.cursor);
    if page.Ok? && !w.done {
      n' := n + |page.value.entries|;
      assert values[..n'] == values[..n] + values[n..n'];
    }
  }

  /** How many of the limits the list accepts. */
  function Usable(limits: seq<nat>): (n: nat)
    decreases |limits|
  {
    if limits == [] then 0 else (if 1 <= limits[0] <= 200 then 1 else 0) + Usable(limits[1..])
  }

  lemma {:induction false} WalkAllFrom<T>(values: seq<T>, w: Walker<T>, limits: seq<nat>, n: nat) returns (n': nat)
    requires AtEntry(values, w, n)
    ensures AtEntry(values, WalkAll(values, w, limits), n') && n <= n'
    ensures w.done ==> WalkAll(values, w, limits).done
    ensures WalkAll(values, w, limits).done || n' >= n + Usable(limits)
    decreases |limits|
  {
    n' := n;
    if limits != [] {
      var m := WalkNextAdvances(values, w, limits[0], n);
      n' := WalkAllFrom(values, WalkNext(values, w, limits[0]), limits[1..], m);
    }
  }

  /** Any walk from the start yields a prefix in order, each entry once; enough pages yield the list. */
  lemma PagesReassemble<T>(values: seq<T>, limits: seq<nat>)
    ensures
      var end := WalkAll(values, Walker(None, [], false), limits);
      && end.collected <= values
      && (end.done ==> end.collected == values)
      && (Usable(limits) > |values| ==> end.done)
  {
    var n := WalkAllFrom(values, Walker(None, [], false), limits, 0);
  }

  /** Where a page of this list starts, if the cursor is one of this list. */
  predicate StartsAt<T(==)>(values: seq<T>, cursor: Option<Cursor<T>>, offset: nat) {
    && offset <= |values|
    && ((cursor == None && offset == 0) || cursor == Some(Cursor(Revision(values), Some(offset))))
  }

  predicate Foreign<T(==)>(values: seq<T>, cursor: Option<Cursor<T>>) {
    cursor.Some? && cursor.value.Cursor? && cursor.value.revision != Revision(values)
  }

  /**
   A page is given exactly for a limit of 1 to 200 and no cursor or one of this
   list, and then holds the next entries, as many as the limit allows, with a cursor
   exactly when more follow; another list's cursor conflicts and any other is invalid.
   */
  lemma PageExactly<T>(values: seq<T>, limit: nat, cursor: Option<Cursor<T>>, offset: nat)
    ensures
      var r := PageOf(values, limit, cursor);
      && (r == Err(LimitOutOfRange) <==> limit == 0 || limit > 200)
      && (r == Err(RevisionChanged) <==> 1 <= limit <= 200 && Foreign(values, cursor))
      && (r == Err(InvalidCursor) <==>
            1 <= limit <= 200 && !Foreign(values, cursor) && (forall at :: !StartsAt(values, cursor, at)))
      && (1 <= limit <= 200 && StartsAt(values, cursor, offset) ==>
            && r.Ok? && r.value.revision == Revision(values) && r.value.total == |values|
            && |r.value.entries| == (if limit < |values| - offset then limit else |values| - offset)
            && (forall i :: 0 <= i < |r.value.entries| ==> r.value.entries[i] == values[offset + i])
            && (r.value.next.Some? <==> offset + limit < |values|)
            && (r.value.next.Some? ==> StartsAt(values, r.value.next, offset + limit)))
  {
    var given := if cursor.Some? && cursor.value.Cursor? && cursor.value.offset.Some? then cursor.value.offset.value else 0;
    assert PageOf(values, limit, cursor).Ok? ==> StartsAt(values, cursor, given);
  }

  /** A cursor taken from one list is refused on any other. */
  lemma ForeignCursorIsRejected<T>(values: seq<T>, other: seq<T>, first: Option<Cursor<T>>, limit: nat, limit': nat)
    requires PageOf(values, limit, first).Ok? && PageOf(values, limit, first).value.next.Some? && values != other
    ensures 1 <= limit' <= 200 ==> PageOf(other, limit', PageOf(values, limit, first).value.next) == Err(RevisionChanged)
  {
  }
}
