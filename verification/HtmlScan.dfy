/** One forward pass over raw HTML for `<tag ...>...</tag>` blocks. */
module HtmlScan {
  import opened Tables

  // Tag names are looked up in `low`, the lowercased text, and everything else in the text itself, at the same offsets.
  // Lowercasing can make a text longer.

  datatype Block = Block(start: nat, bodyStart: nat, bodyEnd: nat, end: nat, attrs: string)

  // ---- finding a substring ------------------------------------------------------------------------------

  predicate Occurs(s: string, needle: string, i: nat) {
    i + |needle| <= |s| && s[i..i + |needle|] == needle
  }

  ghost predicate NoneIn(s: string, needle: string, lo: nat, hi: nat) {
    forall i: nat | lo <= i < hi :: !Occurs(s, needle, i)
  }

  /** The first occurrence at or after `from`. */
  function Find(s: string, needle: string, from: nat): (r: Option<nat>)
    ensures r.Some? ==> from <= r.value && r.value + |needle| <= |s|
    decreases |s| + 1 - from
  {
    if from > |s| then None
    else if Occurs(s, needle, from) then Some(from)
    else Find(s, needle, from + 1)
  }

  lemma {:induction false} FindIs(s: string, needle: string, from: nat)
    ensures var r := Find(s, needle, from);
      && (r.Some? ==> Occurs(s, needle, r.value) && NoneIn(s, needle, from, r.value))
      && (r.None? ==> NoneIn(s, needle, from, |s| + 1))
    decreases |s| + 1 - from
  {
    if from <= |s| && !Occurs(s, needle, from) {
      FindIs(s, needle, from + 1);
    }
  }

  // ---- the scan ------------------------------------------------------------------------------------------

  function OpenNeedle(tag: string): string {
    "<" + tag
  }

  function CloseNeedle(tag: string): string {
    "</" + tag
  }

  /** The tag name ends at white space, a slash, a bracket or the end of the text. */
  predicate NameEnds(html: string, after: nat) {
    after < |html| ==> html[after] in " \t\r\n/>"
  }

  /** What a scan from `pos` does next: stop, move on, or yield a block. */
  datatype Turn = Stop | Skip(pos: nat) | Yield(block: Block, last: bool)

  function Look(html: string, low: string, tag: string, pos: nat): Turn
  {
    var opening := Find(low, OpenNeedle(tag), pos);
    if opening.None? then Stop
    else
      var start := opening.value;
      var after := start + |OpenNeedle(tag)|;
      if !NameEnds(html, after) then Skip(after)
      else
        var gt := Find(html, ">", after);
        if gt.None? then Stop else Finish(html, low, tag, start, gt.value)
  }

  /** The block whose opening tag runs from `start` to the bracket at `gt`. */
  function Finish(html: string, low: string, tag: string, start: nat, gt: nat): Turn
    requires start + |OpenNeedle(tag)| <= gt < |html|
  {
    var attrs := html[start + |OpenNeedle(tag)|..gt];
    var close := Find(low, CloseNeedle(tag), gt + 1);
    if close.None? then Yield(Block(start, gt + 1, |html|, |html|, attrs), true)
    else
      var closeGt := Find(html, ">", close.value + |CloseNeedle(tag)|);
      var end := if closeGt.None? then |html| else closeGt.value + 1;
      Yield(Block(start, gt + 1, close.value, end, attrs), false)
  }

  function Scan(html: string, low: string, tag: string, pos: nat): seq<Block>
    decreases |html| + |low| + 1 - pos
  {
    match Look(html, low, tag, pos)
    case Stop => []
    case Skip(next) => LookMoves(html, low, tag, pos); Scan(html, low, tag, next)
    case Yield(b, last) => LookMoves(html, low, tag, pos); [b] + if last then [] else Scan(html, low, tag, b.end)
  }

  lemma LookMoves(html: string, low: string, tag: string, pos: nat)
    ensures var t := Look(html, low, tag, pos);
      && (t.Skip? ==> pos < t.pos <= |low|)
      && (t.Yield? ==> Placed(t.block, pos, |html|) && (t.last ==> t.block.end == |html|))
  {
  }

  // ---- where blocks lie ----------------------------------------------------------------------------------

  /** A body can end beyond its block: its end is an offset in the lowercased text. */
  predicate Placed(b: Block, pos: nat, n: nat) {
    pos <= b.start < b.bodyStart <= b.end <= n && b.bodyStart <= b.bodyEnd
  }

  /** In order, apart and in bounds, from `pos` on. */
  ghost predicate Laid(bs: seq<Block>, pos: nat, n: nat)
    decreases |bs|
  {
    bs == [] || (Placed(bs[0], pos, n) && Laid(bs[1..], bs[0].end, n))
  }

  lemma {:induction false} ScanLaysBlocks(html: string, low: string, tag: string, pos: nat)
    ensures Laid(Scan(html, low, tag, pos), pos, |html|)
    decreases |html| + |low| + 1 - pos
  {
    LookMoves(html, low, tag, pos);
    var t := Look(html, low, tag, pos);
    if t.Skip? {
      ScanLaysBlocks(html, low, tag, t.pos);
      LaidFromEarlier(Scan(html, low, tag, t.pos), t.pos, pos, |html|);
    } else if t.Yield? && !t.last {
      ScanLaysBlocks(html, low, tag, t.block.end);
    }
  }

  lemma LaidFromEarlier(bs: seq<Block>, pos: nat, earlier: nat, n: nat)
    requires Laid(bs, pos, n) && earlier <= pos
    ensures Laid(bs, earlier, n)
  {
  }

  lemma {:induction false} LaidApart(bs: seq<Block>, pos: nat, n: nat, i: nat, j: nat)
    requires Laid(bs, pos, n) && i < j < |bs|
    ensures bs[i].end <= bs[j].start && Placed(bs[i], pos, n) && Placed(bs[j], pos, n)
    decreases |bs|
  {
    LaidInBounds(bs[1..], bs[0].end, n, j - 1);
    if i > 0 {
      LaidApart(bs[1..], bs[0].end, n, i - 1, j - 1);
    }
  }

  lemma {:induction false} LaidInBounds(bs: seq<Block>, pos: nat, n: nat, i: nat)
    requires Laid(bs, pos, n) && i < |bs|
    ensures Placed(bs[i], pos, n)
    decreases |bs|
  {
    if i > 0 {
      LaidInBounds(bs[1..], bs[0].end, n, i - 1);
    }
  }

  // ---- what blocks are -----------------------------------------------------------------------------------

  /**
    * A block runs from an opening tag through its first `>`, over a body without a closing tag, to the first `>`
    * after the closing tag. Without a closing tag, or a `>` after it, it runs to the end of the text.
    */
  ghost predicate IsBlock(html: string, low: string, tag: string, b: Block) {
    var after := b.start + |tag| + 1;
    && Placed(b, 0, |html|) && after < b.bodyStart
    && Occurs(low, "<" + tag, b.start) && html[after] in " \t\r\n/>"
    && html[b.bodyStart - 1] == '>' && b.attrs == html[after..b.bodyStart - 1] && '>' !in b.attrs
    && EndsRight(html, low, "</" + tag, b)
  }

  ghost predicate EndsRight(html: string, low: string, close: string, b: Block) {
    && b.bodyStart <= b.bodyEnd && b.end <= |html| && NoneIn(low, close, b.bodyStart, b.bodyEnd)
    && (if Occurs(low, close, b.bodyEnd) then Closed(html, b.bodyEnd + |close|, b.end)
        else b.bodyEnd == b.end == |html|)
  }

  ghost predicate Closed(html: string, from: nat, end: nat) {
    if end > from && end <= |html| && html[end - 1] == '>' then '>' !in html[from..end - 1]
    else end == |html| && (from <= end ==> '>' !in html[from..])
  }

  lemma Single(html: string, i: nat)
    ensures Occurs(html, ">", i) <==> i < |html| && html[i] == '>'
  {
    if i < |html| {
      assert html[i..i + 1] == [html[i]];
    }
  }

  lemma FirstBracket(html: string, from: nat)
    requires from <= |html|
    ensures var r := Find(html, ">", from);
      && (r.Some? ==> from <= r.value < |html| && html[r.value] == '>' && '>' !in html[from..r.value])
      && (r.None? ==> '>' !in html[from..])
  {
    var r := Find(html, ">", from);
    FindIs(html, ">", from);
    var hi := if r.Some? then r.value else |html|;
    forall i: nat | from <= i < hi ensures html[i] != '>' {
      Single(html, i);
    }
    if r.Some? {
      Single(html, r.value);
    }
  }

  lemma ClosedWhere(html: string, from: nat)
    ensures var r := Find(html, ">", from); Closed(html, from, if r.None? then |html| else r.value + 1)
  {
    if from <= |html| {
      FirstBracket(html, from);
    }
    var r := Find(html, ">", from);
    if r.None? && from <= |html| {
      assert html[from..] == html[from..|html|];
      assert from < |html| ==> html[from..][|html| - 1 - from] == html[|html| - 1];
    }
  }

  lemma EndsAtClose(html: string, low: string, close: string, b: Block, from: nat)
    requires b.bodyStart <= b.bodyEnd && Occurs(low, close, b.bodyEnd)
    requires NoneIn(low, close, b.bodyStart, b.bodyEnd) && from == b.bodyEnd + |close|
    requires b.end == var r := Find(html, ">", from); if r.None? then |html| else r.value + 1
    ensures EndsRight(html, low, close, b)
  {
    ClosedWhere(html, from);
  }

  lemma EndsAtEnd(html: string, low: string, close: string, b: Block)
    requires b.bodyStart <= b.bodyEnd == b.end == |html|
    requires NoneIn(low, close, b.bodyStart, |low| + 1)
    ensures EndsRight(html, low, close, b)
  {
    assert |html| <= |low| ==> !Occurs(low, close, |html|);
  }

  lemma FinishCloses(html: string, low: string, tag: string, start: nat, gt: nat)
    requires start + |OpenNeedle(tag)| <= gt < |html|
    ensures var b := Finish(html, low, tag, start, gt).block;
      && b.start == start && b.bodyStart == gt + 1 && b.attrs == html[start + |tag| + 1..gt]
      && EndsRight(html, low, CloseNeedle(tag), b)
  {
    var b := Finish(html, low, tag, start, gt).block;
    var close := Find(low, CloseNeedle(tag), gt + 1);
    FindIs(low, CloseNeedle(tag), gt + 1);
    if close.Some? {
      EndsAtClose(html, low, CloseNeedle(tag), b, close.value + |CloseNeedle(tag)|);
    } else {
      EndsAtEnd(html, low, CloseNeedle(tag), b);
    }
  }

  lemma FinishIsBlock(html: string, low: string, tag: string, start: nat, gt: nat)
    requires start + |OpenNeedle(tag)| <= gt < |html|
    requires Occurs(low, OpenNeedle(tag), start) && NameEnds(html, start + |OpenNeedle(tag)|)
    requires html[gt] == '>' && '>' !in html[start + |OpenNeedle(tag)|..gt]
    ensures IsBlock(html, low, tag, Finish(html, low, tag, start, gt).block)
  {
    FinishCloses(html, low, tag, start, gt);
  }

  lemma LookFinds(html: string, low: string, tag: string, pos: nat) returns (start: nat, gt: nat)
    requires Look(html, low, tag, pos).Yield?
    ensures start + |OpenNeedle(tag)| <= gt < |html| && Look(html, low, tag, pos) == Finish(html, low, tag, start, gt)
    ensures Occurs(low, OpenNeedle(tag), start) && NameEnds(html, start + |OpenNeedle(tag)|)
    ensures html[gt] == '>' && '>' !in html[start + |OpenNeedle(tag)|..gt]
  {
    start := Find(low, OpenNeedle(tag), pos).value;
    FindIs(low, OpenNeedle(tag), pos);
    gt := Find(html, ">", start + |OpenNeedle(tag)|).value;
    FirstBracket(html, start + |OpenNeedle(tag)|);
  }

  lemma LookYieldsBlock(html: string, low: string, tag: string, pos: nat)
    requires Look(html, low, tag, pos).Yield?
    ensures IsBlock(html, low, tag, Look(html, low, tag, pos).block)
  {
    var start, gt := LookFinds(html, low, tag, pos);
    FinishIsBlock(html, low, tag, start, gt);
  }

  lemma {:induction false} ScanYieldsBlocks(html: string, low: string, tag: string, pos: nat, b: Block)
    requires b in Scan(html, low, tag, pos)
    ensures IsBlock(html, low, tag, b)
    decreases |html| + |low| + 1 - pos
  {
    LookMoves(html, low, tag, pos);
    var t := Look(html, low, tag, pos);
    if t.Skip? {
      ScanYieldsBlocks(html, low, tag, t.pos, b);
    } else if t.Yield? {
      if b == t.block {
        LookYieldsBlock(html, low, tag, pos);
      } else {
        ScanYieldsBlocks(html, low, tag, t.block.end, b);
      }
    }
  }

  // ---- nothing is missed -----------------------------------------------------------------------------------

  /** A complete opening tag stands at i. */
  ghost predicate OpensAt(html: string, low: string, tag: string, i: nat) {
    Occurs(low, "<" + tag, i) && (i + |tag| + 1 < |html| ==> html[i + |tag| + 1] in " \t\r\n/>") &&
    exists g: nat | i + |tag| + 1 <= g < |html| :: html[g] == '>'
  }

  ghost predicate Covered(bs: seq<Block>, i: nat) {
    exists b | b in bs :: b.start <= i < b.end
  }

  lemma CharAt(low: string, needle: string, i: nat, k: nat)
    requires Occurs(low, needle, i) && k < |needle|
    ensures low[i + k] == needle[k]
  {
    assert low[i..i + |needle|][k] == low[i + k];
  }

  lemma NoOverlap(low: string, tag: string, i: nat, j: nat)
    requires '<' !in tag && Occurs(low, OpenNeedle(tag), i) && Occurs(low, OpenNeedle(tag), j) && i < j
    ensures j >= i + |tag| + 1
  {
    CharAt(low, OpenNeedle(tag), j, 0);
    forall k | i < k < i + |tag| + 1 ensures low[k] != '<' {
      CharAt(low, OpenNeedle(tag), i, k - i);
      assert OpenNeedle(tag)[k - i] == tag[k - i - 1];
    }
  }

  lemma LookSeesOpening(html: string, low: string, tag: string, pos: nat, i: nat)
    requires '<' !in tag && pos <= i && OpensAt(html, low, tag, i)
    ensures var t := Look(html, low, tag, pos);
      && !t.Stop? && (t.Skip? ==> t.pos <= i) && (t.Yield? ==> t.block.start <= i && (t.last ==> i < t.block.end))
  {
    LookMoves(html, low, tag, pos);
    FindIs(low, OpenNeedle(tag), pos);
    var start := Find(low, OpenNeedle(tag), pos).value;
    FindIs(html, ">", start + |OpenNeedle(tag)|);
    if start < i {
      NoOverlap(low, tag, start, i);
    }
    var g: nat :| i + |tag| + 1 <= g < |html| && html[g] == '>';
    Single(html, g);
  }

  /** Every complete opening tag starts a block or lies inside one. */
  lemma {:induction false} ScanCovers(html: string, low: string, tag: string, pos: nat, i: nat)
    requires '<' !in tag && pos <= i && OpensAt(html, low, tag, i)
    ensures Covered(Scan(html, low, tag, pos), i)
    decreases |html| + |low| + 1 - pos
  {
    LookMoves(html, low, tag, pos);
    LookSeesOpening(html, low, tag, pos, i);
    var t := Look(html, low, tag, pos);
    if t.Skip? {
      ScanCovers(html, low, tag, t.pos, i);
    } else if i >= t.block.end {
      ScanCovers(html, low, tag, t.block.end, i);
    } else {
      assert t.block in Scan(html, low, tag, pos);
    }
  }

  // ---- gaps and blocks make up the text --------------------------------------------------------------------

  /** Keep what lies between blocks; keep or blank each block. */
  function Stripped(html: string, bs: seq<Block>, keep: (Block, string) -> bool, last: nat): string
    requires last <= |html| && Laid(bs, last, |html|)
    decreases |bs|
  {
    if bs == [] then html[last..]
    else
      var b := bs[0];
      html[last..b.start] + Left(html, b, keep) + Stripped(html, bs[1..], keep, b.end)
  }

  /** A slice as the source takes it: an end beyond the text is the end of the text. */
  function Cut(s: string, lo: nat, hi: nat): string {
    var top := if hi <= |s| then hi else |s|;
    if lo <= top then s[lo..top] else ""
  }

  function Left(html: string, b: Block, keep: (Block, string) -> bool): (r: string)
    requires Placed(b, 0, |html|)
    ensures |r| <= b.end - b.start
  {
    if keep(b, Cut(html, b.bodyStart, b.bodyEnd)) then html[b.start..b.end] else " "
  }

  lemma StripOne(html: string, bs: seq<Block>, keep: (Block, string) -> bool, last: nat, r: string)
    requires bs != [] && last <= |html| && Laid(bs, last, |html|)
    ensures r + Stripped(html, bs, keep, last) ==
      (r + html[last..bs[0].start] + Left(html, bs[0], keep)) + Stripped(html, bs[1..], keep, bs[0].end)
  {
  }

  lemma ThreeParts(s: string, i: nat, j: nat, k: nat)
    requires i <= j <= k <= |s|
    ensures s[i..] == s[i..j] + s[j..k] + s[k..]
  {
  }

  /** Gaps and blocks concatenate back to the text, so stripping that keeps every block changes nothing. */
  lemma {:induction false} GapsAndBlocks(html: string, bs: seq<Block>, keep: (Block, string) -> bool, last: nat)
    requires last <= |html| && Laid(bs, last, |html|)
    requires forall b | b in bs :: keep(b, Cut(html, b.bodyStart, b.bodyEnd))
    ensures Stripped(html, bs, keep, last) == html[last..]
    decreases |bs|
  {
    if bs != [] {
      var b := bs[0];
      GapsAndBlocks(html, bs[1..], keep, b.end);
      ThreeParts(html, last, b.start, b.end);
    }
  }

  // ---- where everything is afterwards ------------------------------------------------------------------------

  /** Which blocks the caller has left in, told their bodies. */
  function Kept(html: string, bs: seq<Block>, keep: (Block, string) -> bool): seq<bool>
    requires Laid(bs, 0, |html|)
  {
    seq(|bs|, i requires 0 <= i < |bs| => LaidInBounds(bs, 0, |html|, i);
      keep(bs[i], if bs[i].bodyEnd <= |html| then html[bs[i].bodyStart..bs[i].bodyEnd] else html[bs[i].bodyStart..]))
  }

  lemma KeptIsLeft(html: string, bs: seq<Block>, keep: (Block, string) -> bool, i: nat)
    requires Laid(bs, 0, |html|) && i < |bs|
    ensures Placed(bs[i], 0, |html|)
    ensures Left(html, bs[i], keep) == if Kept(html, bs, keep)[i] then html[bs[i].start..bs[i].end] else " "
  {
    LaidInBounds(bs, 0, |html|, i);
    assert html[bs[i].bodyStart..|html|] == html[bs[i].bodyStart..];
  }

  /** By how much the text before block `i` has shrunk: all but one character of every block not kept. */
  function Removed(bs: seq<Block>, kept: seq<bool>, i: nat): int
    requires i <= |bs| == |kept|
  {
    if i == 0 then 0
    else Removed(bs, kept, i - 1) + (if kept[i - 1] then 0 else bs[i - 1].end - bs[i - 1].start - 1)
  }

  /** Gap `i`: the text before block `i`, or behind the last one. */
  function GapStart(bs: seq<Block>, i: nat): nat
    requires i <= |bs|
  {
    if i == 0 then 0 else bs[i - 1].end
  }

  function GapEnd(bs: seq<Block>, n: nat, i: nat): nat
    requires i <= |bs|
  {
    if i == |bs| then n else bs[i].start
  }

  lemma GapsInBounds(bs: seq<Block>, n: nat, i: nat)
    requires Laid(bs, 0, n) && i <= |bs|
    ensures GapStart(bs, i) <= GapEnd(bs, n, i) <= n
    ensures i < |bs| ==> Placed(bs[i], GapStart(bs, i), n)
  {
    if i > 0 {
      LaidInBounds(bs, 0, n, i - 1);
    }
    if i < |bs| {
      LaidInBounds(bs, 0, n, i);
      if i > 0 {
        LaidApart(bs, 0, n, i - 1, i);
      }
    }
  }

  function Slice(s: string, lo: nat, hi: nat): string {
    if lo <= hi <= |s| then s[lo..hi] else ""
  }

  function Gap(html: string, bs: seq<Block>, i: nat): string
    requires i <= |bs|
  {
    Slice(html, GapStart(bs, i), GapEnd(bs, |html|, i))
  }

  /** What is put for a block: all of it if it is kept, or a space. */
  function Put(html: string, b: Block, kept: bool): string {
    if kept then Slice(html, b.start, b.end) else " "
  }

  /** What is written by the time `i` blocks are done. */
  function Upto(html: string, bs: seq<Block>, kept: seq<bool>, i: nat): string
    requires i <= |bs| == |kept|
  {
    if i == 0 then ""
    else Upto(html, bs, kept, i - 1) + Gap(html, bs, i - 1) + Put(html, bs[i - 1], kept[i - 1])
  }

  lemma PieceLengths(html: string, bs: seq<Block>, i: nat, kept: bool)
    requires Laid(bs, 0, |html|) && i < |bs|
    ensures |Gap(html, bs, i)| == bs[i].start - GapStart(bs, i)
    ensures |Put(html, bs[i], kept)| == if kept then bs[i].end - bs[i].start else 1
  {
    GapsInBounds(bs, |html|, i);
  }

  /** Every block not kept has shortened the text by all but one of its characters. */
  lemma {:induction false} UptoLength(html: string, bs: seq<Block>, kept: seq<bool>, i: nat)
    requires i <= |bs| == |kept| && Laid(bs, 0, |html|)
    ensures |Upto(html, bs, kept, i)| == GapStart(bs, i) - Removed(bs, kept, i)
  {
    if i > 0 {
      UptoLength(html, bs, kept, i - 1);
      PieceLengths(html, bs, i - 1, kept[i - 1]);
    }
  }

  /** The text holds `part` from `at` on. */
  predicate Holds(r: string, at: int, part: string) {
    0 <= at <= at + |part| <= |r| && r[at..at + |part|] == part
  }

  lemma HoldsLonger(r: string, at: int, part: string, rest: string)
    requires Holds(r, at, part)
    ensures Holds(r + rest, at, part)
  {
    assert (r + rest)[at..at + |part|] == r[at..at + |part|];
  }

  lemma HoldsLast(r: string, part: string, at: int)
    requires at == |r|
    ensures Holds(r + part, at, part)
  {
    assert (r + part)[at..at + |part|] == part;
  }

  lemma {:induction false} UptoGrows(html: string, bs: seq<Block>, kept: seq<bool>, i: nat, n: nat, at: int,
      part: string)
    requires i <= n <= |bs| == |kept| && Holds(Upto(html, bs, kept, i), at, part)
    ensures Holds(Upto(html, bs, kept, n), at, part)
    decreases n - i
  {
    if i < n {
      UptoGrows(html, bs, kept, i, n - 1, at, part);
      var before, gap := Upto(html, bs, kept, n - 1), Gap(html, bs, n - 1);
      HoldsLonger(before, at, part, gap);
      HoldsLonger(before + gap, at, part, Put(html, bs[n - 1], kept[n - 1]));
    }
  }

  lemma {:induction false} StripIsUpto(html: string, bs: seq<Block>, keep: (Block, string) -> bool, i: nat)
    requires i <= |bs| && Laid(bs, 0, |html|)
    ensures GapStart(bs, i) <= |html| && Laid(bs[i..], GapStart(bs, i), |html|)
    ensures Upto(html, bs, Kept(html, bs, keep), i) + Stripped(html, bs[i..], keep, GapStart(bs, i)) ==
      Stripped(html, bs, keep, 0)
  {
    if i == 0 {
      assert bs[0..] == bs;
    } else {
      var h, rest := i - 1, bs[i - 1..];
      StripIsUpto(html, bs, keep, h);
      GapsInBounds(bs, |html|, h);
      assert rest[0] == bs[h] && rest[1..] == bs[i..];
      KeptIsLeft(html, bs, keep, h);
      StripOne(html, rest, keep, GapStart(bs, h), Upto(html, bs, Kept(html, bs, keep), h));
    }
  }

  /** The whole: everything written, and the text behind the last block. */
  lemma StripEnds(html: string, bs: seq<Block>, keep: (Block, string) -> bool)
    requires Laid(bs, 0, |html|)
    ensures Stripped(html, bs, keep, 0) == Upto(html, bs, Kept(html, bs, keep), |bs|) + Gap(html, bs, |bs|)
    ensures |Gap(html, bs, |bs|)| == |html| - GapStart(bs, |bs|)
  {
    StripIsUpto(html, bs, keep, |bs|);
    assert bs[|bs|..] == [];
    assert html[GapStart(bs, |bs|)..] == html[GapStart(bs, |bs|)..|html|];
  }

  /** Block `i` of the text, or a space, stands in `r` where it has moved to. */
  ghost predicate BlockIn(html: string, bs: seq<Block>, kept: seq<bool>, r: string, i: nat)
    requires i < |bs| == |kept|
  {
    Holds(r, bs[i].start - Removed(bs, kept, i), Put(html, bs[i], kept[i]))
  }

  /** Gap `i` of the text does. */
  ghost predicate GapIn(html: string, bs: seq<Block>, kept: seq<bool>, r: string, i: nat)
    requires i <= |bs| == |kept|
  {
    Holds(r, GapStart(bs, i) - Removed(bs, kept, i), Gap(html, bs, i))
  }

  /** A space or the whole block in each block's place, the text between as it was, and nothing else. */
  ghost predicate Replaced(html: string, bs: seq<Block>, kept: seq<bool>, r: string)
    requires |bs| == |kept|
  {
    && |r| == |html| - Removed(bs, kept, |bs|)
    && (forall i | 0 <= i < |bs| :: BlockIn(html, bs, kept, r, i))
    && (forall i | 0 <= i <= |bs| :: GapIn(html, bs, kept, r, i))
  }

  lemma GapNext(html: string, bs: seq<Block>, kept: seq<bool>, i: nat, at: int)
    requires i < |bs| == |kept| && at == |Upto(html, bs, kept, i)|
    ensures Holds(Upto(html, bs, kept, i + 1), at, Gap(html, bs, i))
  {
    var before, gap := Upto(html, bs, kept, i), Gap(html, bs, i);
    HoldsLast(before, gap, at);
    HoldsLonger(before + gap, at, gap, Put(html, bs[i], kept[i]));
  }

  lemma BlockNext(html: string, bs: seq<Block>, kept: seq<bool>, i: nat, at: int)
    requires i < |bs| == |kept| && at == |Upto(html, bs, kept, i)| + |Gap(html, bs, i)|
    ensures Holds(Upto(html, bs, kept, i + 1), at, Put(html, bs[i], kept[i]))
  {
    HoldsLast(Upto(html, bs, kept, i) + Gap(html, bs, i), Put(html, bs[i], kept[i]), at);
  }

  lemma GapPlace(html: string, bs: seq<Block>, kept: seq<bool>, i: nat) returns (at: int)
    requires Laid(bs, 0, |html|) && i <= |bs| == |kept|
    ensures at == GapStart(bs, i) - Removed(bs, kept, i) == |Upto(html, bs, kept, i)|
  {
    UptoLength(html, bs, kept, i);
    at := GapStart(bs, i) - Removed(bs, kept, i);
  }

  lemma BlockPlace(html: string, bs: seq<Block>, kept: seq<bool>, i: nat) returns (at: int)
    requires Laid(bs, 0, |html|) && i < |bs| == |kept|
    ensures at == bs[i].start - Removed(bs, kept, i) == |Upto(html, bs, kept, i)| + |Gap(html, bs, i)|
  {
    UptoLength(html, bs, kept, i);
    PieceLengths(html, bs, i, kept[i]);
    at := bs[i].start - Removed(bs, kept, i);
  }

  lemma GapStays(html: string, bs: seq<Block>, kept: seq<bool>, i: nat, at: int)
    requires i < |bs| == |kept| && at == |Upto(html, bs, kept, i)|
    ensures Holds(Upto(html, bs, kept, |bs|), at, Gap(html, bs, i))
  {
    GapNext(html, bs, kept, i, at);
    UptoGrows(html, bs, kept, i + 1, |bs|, at, Gap(html, bs, i));
  }

  lemma BlockStays(html: string, bs: seq<Block>, kept: seq<bool>, i: nat, at: int)
    requires i < |bs| == |kept| && at == |Upto(html, bs, kept, i)| + |Gap(html, bs, i)|
    ensures Holds(Upto(html, bs, kept, |bs|), at, Put(html, bs[i], kept[i]))
  {
    BlockNext(html, bs, kept, i, at);
    UptoGrows(html, bs, kept, i + 1, |bs|, at, Put(html, bs[i], kept[i]));
  }

  lemma HeldGap(html: string, bs: seq<Block>, kept: seq<bool>, r: string, rest: string, i: nat, at: int)
    requires i <= |bs| == |kept| && at == GapStart(bs, i) - Removed(bs, kept, i) && Holds(r, at, Gap(html, bs, i))
    ensures GapIn(html, bs, kept, r + rest, i)
  {
    HoldsLonger(r, at, Gap(html, bs, i), rest);
  }

  lemma HeldBlock(html: string, bs: seq<Block>, kept: seq<bool>, r: string, rest: string, i: nat, at: int)
    requires i < |bs| == |kept| && at == bs[i].start - Removed(bs, kept, i) && Holds(r, at, Put(html, bs[i], kept[i]))
    ensures BlockIn(html, bs, kept, r + rest, i)
  {
    HoldsLonger(r, at, Put(html, bs[i], kept[i]), rest);
  }

  /** What is written of all blocks, and the text behind the last, hold every gap in its moved place ... */
  lemma GapWritten(html: string, bs: seq<Block>, kept: seq<bool>, i: nat)
    requires Laid(bs, 0, |html|) && i < |bs| == |kept|
    ensures GapIn(html, bs, kept, Upto(html, bs, kept, |bs|) + Gap(html, bs, |bs|), i)
  {
    var at := GapPlace(html, bs, kept, i);
    GapStays(html, bs, kept, i, at);
    HeldGap(html, bs, kept, Upto(html, bs, kept, |bs|), Gap(html, bs, |bs|), i, at);
  }

  lemma EndWritten(html: string, bs: seq<Block>, kept: seq<bool>)
    requires Laid(bs, 0, |html|) && |bs| == |kept|
    ensures GapIn(html, bs, kept, Upto(html, bs, kept, |bs|) + Gap(html, bs, |bs|), |bs|)
  {
    UptoLength(html, bs, kept, |bs|);
    EndHeld(html, bs, kept, Upto(html, bs, kept, |bs|));
  }

  lemma EndHeld(html: string, bs: seq<Block>, kept: seq<bool>, r: string)
    requires |bs| == |kept| && |r| == GapStart(bs, |bs|) - Removed(bs, kept, |bs|)
    ensures GapIn(html, bs, kept, r + Gap(html, bs, |bs|), |bs|)
  {
    HoldsLast(r, Gap(html, bs, |bs|), GapStart(bs, |bs|) - Removed(bs, kept, |bs|));
  }

  /** ... and every block, or a space for it. */
  lemma BlockWritten(html: string, bs: seq<Block>, kept: seq<bool>, i: nat)
    requires Laid(bs, 0, |html|) && i < |bs| == |kept|
    ensures BlockIn(html, bs, kept, Upto(html, bs, kept, |bs|) + Gap(html, bs, |bs|), i)
  {
    var at := BlockPlace(html, bs, kept, i);
    BlockStays(html, bs, kept, i, at);
    HeldBlock(html, bs, kept, Upto(html, bs, kept, |bs|), Gap(html, bs, |bs|), i, at);
  }

  lemma StripLength(html: string, bs: seq<Block>, keep: (Block, string) -> bool)
    requires Laid(bs, 0, |html|)
    ensures |Stripped(html, bs, keep, 0)| == |html| - Removed(bs, Kept(html, bs, keep), |bs|)
  {
    StripEnds(html, bs, keep);
    UptoLength(html, bs, Kept(html, bs, keep), |bs|);
  }

  lemma StripReplaces(html: string, bs: seq<Block>, keep: (Block, string) -> bool)
    requires Laid(bs, 0, |html|)
    ensures Replaced(html, bs, Kept(html, bs, keep), Stripped(html, bs, keep, 0))
  {
    var kept, r := Kept(html, bs, keep), Stripped(html, bs, keep, 0);
    StripLength(html, bs, keep);
    StripEnds(html, bs, keep);
    forall i | 0 <= i < |bs| ensures BlockIn(html, bs, kept, r, i) {
      BlockWritten(html, bs, kept, i);
    }
    forall i | 0 <= i < |bs| ensures GapIn(html, bs, kept, r, i) {
      GapWritten(html, bs, kept, i);
    }
    EndWritten(html, bs, kept);
  }

  /** With a single block, not kept, a space stands between the text before it and the text behind. */
  lemma ReplacedOne(html: string, b: Block, r: string)
    requires Placed(b, 0, |html|) && Replaced(html, [b], [false], r)
    ensures r == html[..b.start] + " " + html[b.end..]
  {
    var bs, kept := [b], [false];
    assert BlockIn(html, bs, kept, r, 0) && GapIn(html, bs, kept, r, 0) && GapIn(html, bs, kept, r, 1);
    assert Removed(bs, kept, 0) == 0 && Removed(bs, kept, 1) == b.end - b.start - 1;
    ThreeHeld(r, html[..b.start], " ", html[b.end..]);
  }

  lemma ThreeHeld(r: string, a: string, b: string, c: string)
    requires |r| == |a| + |b| + |c| && Holds(r, 0, a) && Holds(r, |a|, b) && Holds(r, |a| + |b|, c)
    ensures r == a + b + c
  {
    ThreeParts(r, 0, |a|, |a| + |b|);
    assert r[0..] == r && r[|a| + |b|..] == r[|a| + |b|..|a| + |b| + |c|];
  }

  /** A block is never shorter than the space put in its place; each one blanked makes the text shorter or equal. */
  lemma {:induction false} StripNeverLonger(html: string, bs: seq<Block>, keep: (Block, string) -> bool, last: nat)
    requires last <= |html| && Laid(bs, last, |html|)
    ensures |Stripped(html, bs, keep, last)| <= |html| - last
    decreases |bs|
  {
    if bs != [] {
      StripNeverLonger(html, bs[1..], keep, bs[0].end);
    }
  }

  lemma SliceOfSlice(s: string, lo: nat, hi: nat, i: nat, n: nat)
    requires lo <= hi <= |s| && i + n <= hi - lo
    ensures s[lo..hi][i..i + n] == s[lo + i..lo + i + n]
  {
    var a, b := s[lo..hi][i..i + n], s[lo + i..lo + i + n];
    assert |a| == |b|;
    forall k | 0 <= k < |a| ensures a[k] == b[k] {
      assert a[k] == s[lo..hi][i + k] == s[lo + i + k];
    }
  }

  lemma BodyHasNoClose(html: string, low: string, tag: string, b: Block, i: nat)
    requires |low| >= |html| && IsBlock(html, low, tag, b)
    ensures b.bodyEnd <= |low| && !Occurs(low[b.bodyStart..b.bodyEnd], "</" + tag, i)
  {
    var body, close := low[b.bodyStart..b.bodyEnd], "</" + tag;
    if i + |close| <= |body| {
      SliceOfSlice(low, b.bodyStart, b.bodyEnd, i, |close|);
      assert !Occurs(low, close, b.bodyStart + i);
    }
  }

  // ---- lowercasing ------------------------------------------------------------------------------------------

  /** What each character becomes: one character, rarely more, never none. */
  type Lowering = lower: char -> string | forall c :: lower(c) != "" witness (c: char) => [c]

  function Lowered(s: string, lower: Lowering): (low: string)
    ensures |low| >= |s|
  {
    if s == "" then "" else lower(s[0]) + Lowered(s[1..], lower)
  }

  /** Every character of the text becomes one character, so offsets in the two texts agree. */
  ghost predicate InPlace(s: string, lower: Lowering) {
    forall i | 0 <= i < |s| :: |lower(s[i])| == 1
  }

  lemma {:induction false} LoweredAt(s: string, lower: Lowering, i: nat)
    requires InPlace(s, lower)
    ensures |Lowered(s, lower)| == |s| && (i < |s| ==> Lowered(s, lower)[i] == lower(s[i])[0])
    decreases |s|
  {
    if s != "" {
      LoweredAt(s[1..], lower, if i == 0 then 0 else i - 1);
    }
  }

  lemma LoweredSlice(s: string, lower: Lowering, lo: nat, hi: nat)
    requires InPlace(s, lower) && lo <= hi <= |s|
    ensures |Lowered(s, lower)| == |s| && Lowered(s[lo..hi], lower) == Lowered(s, lower)[lo..hi]
  {
    LoweredAt(s, lower, 0);
    LoweredAt(s[lo..hi], lower, 0);
    forall i | 0 <= i < hi - lo ensures Lowered(s[lo..hi], lower)[i] == Lowered(s, lower)[lo + i] {
      LoweredAt(s, lower, lo + i);
      LoweredAt(s[lo..hi], lower, i);
    }
  }

  lemma {:induction false} LoweredJoin(a: string, b: string, lower: Lowering)
    ensures Lowered(a + b, lower) == Lowered(a, lower) + Lowered(b, lower)
    decreases |a|
  {
    if a == "" {
      assert a + b == b;
    } else {
      assert (a + b)[1..] == a[1..] + b;
      LoweredJoin(a[1..], b, lower);
    }
  }

  /** A complete opening tag, in any case, stands at i of the text itself. */
  ghost predicate TagAt(html: string, lower: Lowering, tag: string, i: nat) {
    && i + |tag| + 1 <= |html| && Lowered(html[i..i + |tag| + 1], lower) == "<" + tag
    && (i + |tag| + 1 < |html| ==> html[i + |tag| + 1] in " \t\r\n/>") && '>' in html[i + |tag| + 1..]
  }

  ghost predicate FindsTags(html: string, lower: Lowering, tag: string) {
    forall i: nat | TagAt(html, lower, tag, i) :: Covered(Scan(html, Lowered(html, lower), tag, 0), i)
  }

  /** Text before the first character that becomes longer keeps its place. */
  lemma LoweredPrefix(s: string, lower: Lowering, n: nat)
    requires n <= |s| && InPlace(s[..n], lower)
    ensures |Lowered(s[..n], lower)| == n && Lowered(s[..n], lower) == Lowered(s, lower)[..n]
  {
    assert s == s[..n] + s[n..];
    LoweredJoin(s[..n], s[n..], lower);
    LoweredAt(s[..n], lower, 0);
  }

  /** A tag whose name ends before the first character that becomes longer is found. */
  lemma FindsTagBefore(html: string, lower: Lowering, tag: string, i: nat)
    requires '<' !in tag && TagAt(html, lower, tag, i) && InPlace(html[..i + |tag| + 1], lower)
    ensures Covered(Scan(html, Lowered(html, lower), tag, 0), i)
  {
    var n, low := i + |tag| + 1, Lowered(html, lower);
    LoweredPrefix(html, lower, n);
    LoweredSlice(html[..n], lower, i, n);
    assert html[..n][i..n] == html[i..n];
    assert low[..n][i..n] == low[i..n];
    var rest := html[n..];
    var k :| 0 <= k < |rest| && rest[k] == '>';
    assert html[n + k] == '>';
    ScanCovers(html, low, tag, 0, i);
  }

  /** In a text without such a character every tag is found. */
  lemma FindsTagsInPlace(html: string, lower: Lowering, tag: string)
    requires '<' !in tag && InPlace(html, lower)
    ensures FindsTags(html, lower, tag)
  {
    forall i: nat | TagAt(html, lower, tag, i) ensures Covered(Scan(html, Lowered(html, lower), tag, 0), i) {
      assert InPlace(html[..i + |tag| + 1], lower);
      FindsTagBefore(html, lower, tag, i);
    }
  }

  /** Lowercasing leaves brackets and the tag's name alone and makes no bracket. */
  ghost predicate Plain(lower: Lowering, tag: string) {
    && '<' !in tag && lower('<') == "<" && (forall c | c in tag :: lower(c) == [c])
    && (forall c | c != '<' :: '<' !in lower(c))
  }

  lemma {:induction false} PlainText(s: string, lower: Lowering)
    requires forall c | c in s :: lower(c) == [c]
    ensures Lowered(s, lower) == s
    decreases |s|
  {
    if s != "" {
      PlainText(s[1..], lower);
      assert s == [s[0]] + s[1..];
    }
  }

  /** A text whose only tag stands right after the character. */
  function After(c: char, tag: string): string {
    [c] + OpenNeedle(tag) + ">"
  }

  lemma LoweredAfter(lower: Lowering, tag: string, c: char)
    requires Plain(lower, tag)
    ensures Lowered(After(c, tag), lower) == lower(c) + OpenNeedle(tag) + lower('>')
    ensures TagAt(After(c, tag), lower, tag, 1)
  {
    var open := OpenNeedle(tag);
    PlainText(open, lower);
    LoweredJoin([c] + open, ">", lower);
    LoweredJoin([c], open, lower);
    assert After(c, tag)[1..|tag| + 2] == open;
    assert After(c, tag)[|tag| + 2..] == ">";
  }

  /** A character that becomes longer hides the tag behind it: the scan looks for the tag's bracket too far right. */
  lemma LongerHidesTag(lower: Lowering, tag: string, c: char)
    requires Plain(lower, tag) && |lower(c)| > 1
    ensures Scan(After(c, tag), Lowered(After(c, tag), lower), tag, 0) == []
    ensures !FindsTags(After(c, tag), lower, tag)
  {
    var html, low := After(c, tag), Lowered(After(c, tag), lower);
    LoweredAfter(lower, tag, c);
    FindIs(low, OpenNeedle(tag), 0);
    var opening := Find(low, OpenNeedle(tag), 0);
    if opening.Some? {
      CharAt(low, OpenNeedle(tag), opening.value, 0);
      assert forall i | 0 <= i < |lower(c)| :: low[i] == lower(c)[i];
      assert opening.value >= |lower(c)|;
    }
  }

  /** The scan finds every tag of every text exactly if no character becomes longer. */
  lemma FindsTagsExactlyIf(lower: Lowering, tag: string)
    requires Plain(lower, tag)
    ensures (forall html :: FindsTags(html, lower, tag)) <==> (forall c :: |lower(c)| == 1)
  {
    if c :| |lower(c)| != 1 {
      LongerHidesTag(lower, tag, c);
    } else {
      forall html ensures FindsTags(html, lower, tag) {
        FindsTagsInPlace(html, lower, tag);
      }
    }
  }

  // ---- the loops as they run --------------------------------------------------------------------------------

  /** How far into the texts the finds of a turn can have moved. */
  function Reach(html: string, low: string, t: Turn): nat {
    match t
    case Stop => |low|
    case Skip(next) => next
    case Yield(b, last) => if last || b.bodyEnd > |html| then |low| else b.end
  }

  /** One turn of the scan. `moved` adds up the characters its finds move over. */
  method NextBlock(html: string, low: string, tag: string, pos: nat) returns (t: Turn, ghost moved: nat)
    requires |low| >= |html| && |low| >= pos
    ensures t == Look(html, low, tag, pos) && pos + moved <= Reach(html, low, t)
  {
    var opening := Find(low, OpenNeedle(tag), pos);
    if opening.None? {
      return Stop, |low| - pos;
    }
    var start := opening.value;
    var after := start + |OpenNeedle(tag)|;
    if !NameEnds(html, after) {
      return Skip(after), start - pos;
    }
    var gt := Find(html, ">", after);
    if gt.None? {
      return Stop, (start - pos) + Tail(html, after);
    }
    t, moved := CloseBlock(html, low, tag, start, gt.value);
    moved := moved + (start - pos) + (gt.value - after);
  }

  function Tail(s: string, from: nat): nat {
    if from <= |s| then |s| - from else 0
  }

  method CloseBlock(html: string, low: string, tag: string, start: nat, gt: nat) returns (t: Turn, ghost moved: nat)
    requires |low| >= |html| && start + |OpenNeedle(tag)| <= gt < |html|
    ensures t == Finish(html, low, tag, start, gt) && gt + 1 + moved <= Reach(html, low, t)
  {
    var n, attrs := |html|, html[start + |OpenNeedle(tag)|..gt];
    var close := Find(low, CloseNeedle(tag), gt + 1);
    if close.None? {
      return Yield(Block(start, gt + 1, n, n, attrs), true), |low| - gt - 1;
    }
    var afterClose := close.value + |CloseNeedle(tag)|;
    var closeGt := Find(html, ">", afterClose);
    var end := if closeGt.None? then n else closeGt.value + 1;
    moved := (close.value - gt - 1) + (if closeGt.None? then Tail(html, afterClose) else closeGt.value - afterClose);
    t := Yield(Block(start, gt + 1, close.value, end, attrs), false);
  }

  lemma ScanOne(html: string, low: string, tag: string, pos: nat, before: seq<Block>)
    ensures before + Scan(html, low, tag, pos) ==
      match Look(html, low, tag, pos)
      case Stop => before
      case Skip(next) => before + Scan(html, low, tag, next)
      case Yield(b, last) => if last then before + [b] else (before + [b]) + Scan(html, low, tag, b.end)
  {
    LookMoves(html, low, tag, pos);
    match Look(html, low, tag, pos)
    case Stop => assert before + [] == before;
    case Skip(_) =>
    case Yield(b, last) =>
      var rest := if last then [] else Scan(html, low, tag, b.end);
      assert Scan(html, low, tag, pos) == [b] + rest;
      assert before + ([b] + rest) == (before + [b]) + rest;
  }

  /**
    * The finds of a whole scan move over no more characters than the text has, if lowercasing keeps its length;
    * otherwise over the lowercased text and, at most once more, over what it is longer by.
    */
  method IterBlocks(html: string, lower: Lowering, tag: string) returns (blocks: seq<Block>, ghost passed: nat)
    ensures blocks == Scan(html, Lowered(html, lower), tag, 0)
    ensures var longer := |Lowered(html, lower)| - |html|; passed <= |html| + 2 * longer
  {
    var low := Lowered(html, lower);
    var pos := 0;
    blocks, passed := [], 0;
    while true
      invariant pos <= |low| && (passed <= pos || (pos == |html| && passed <= |low|))
      invariant blocks + Scan(html, low, tag, pos) == Scan(html, low, tag, 0)
      decreases |low| + 1 - pos
    {
      LookMoves(html, low, tag, pos);
      ScanOne(html, low, tag, pos, blocks);
      var t, moved := NextBlock(html, low, tag, pos);
      passed := passed + moved;
      match t {
        case Stop => return;
        case Skip(next) => pos := next;
        case Yield(b, last) =>
          blocks := blocks + [b];
          if last {
            return;
          }
          pos := b.end;
      }
    }
  }

  method StripBlocks(html: string, lower: Lowering, tag: string, keep: (Block, string) -> bool) returns (r: string)
    ensures Laid(Scan(html, Lowered(html, lower), tag, 0), 0, |html|)
    ensures r == Stripped(html, Scan(html, Lowered(html, lower), tag, 0), keep, 0) && |r| <= |html|
    ensures var bs := Scan(html, Lowered(html, lower), tag, 0); Replaced(html, bs, Kept(html, bs, keep), r)
  {
    var bs, _ := IterBlocks(html, lower, tag);
    ScanLaysBlocks(html, Lowered(html, lower), tag, 0);
    StripReplaces(html, bs, keep);
    r := Join(html, bs, keep);
  }

  method Join(html: string, bs: seq<Block>, keep: (Block, string) -> bool) returns (r: string)
    requires Laid(bs, 0, |html|)
    ensures r == Stripped(html, bs, keep, 0) && |r| <= |html|
  {
    StripNeverLonger(html, bs, keep, 0);
    r := "";
    var last: nat := 0;
    for i := 0 to |bs|
      invariant last <= |html| && Laid(bs[i..], last, |html|)
      invariant r + Stripped(html, bs[i..], keep, last) == Stripped(html, bs, keep, 0)
    {
      assert bs[i..][0] == bs[i] && bs[i..][1..] == bs[i + 1..];
      StripOne(html, bs[i..], keep, last, r);
      r := r + html[last..bs[i].start] + Left(html, bs[i], keep);
      last := bs[i].end;
    }
    r := r + html[last..];
  }

  /** What a block's body is; with every character in its place it holds no closing tag, in any case. */
  ghost predicate IsBody(html: string, lower: Lowering, tag: string, b: Block, body: string) {
    && IsBlock(html, Lowered(html, lower), tag, b)
    && body == (if b.bodyEnd <= |html| then html[b.bodyStart..b.bodyEnd] else html[b.bodyStart..])
    && (InPlace(html, lower) ==> forall k: nat :: !Occurs(Lowered(body, lower), "</" + tag, k))
  }

  lemma BodyInPlace(html: string, lower: Lowering, tag: string, b: Block, k: nat)
    requires InPlace(html, lower) && IsBlock(html, Lowered(html, lower), tag, b)
    ensures b.bodyEnd <= |html| && !Occurs(Lowered(html[b.bodyStart..b.bodyEnd], lower), "</" + tag, k)
  {
    var low := Lowered(html, lower);
    BodyHasNoClose(html, low, tag, b, k);
    LoweredAt(html, lower, 0);
    LoweredSlice(html, lower, b.bodyStart, b.bodyEnd);
  }

  lemma BodyOf(html: string, lower: Lowering, tag: string, b: Block)
    requires b in Scan(html, Lowered(html, lower), tag, 0)
    ensures IsBody(html, lower, tag, b, Cut(html, b.bodyStart, b.bodyEnd))
  {
    ScanYieldsBlocks(html, Lowered(html, lower), tag, 0, b);
    var body := Cut(html, b.bodyStart, b.bodyEnd);
    assert html[b.bodyStart..|html|] == html[b.bodyStart..];
    if InPlace(html, lower) {
      forall k: nat ensures !Occurs(Lowered(body, lower), "</" + tag, k) {
        BodyInPlace(html, lower, tag, b, k);
      }
    }
  }

  method Bodies(html: string, lower: Lowering, tag: string) returns (r: seq<string>)
    ensures var bs := Scan(html, Lowered(html, lower), tag, 0);
      |r| == |bs| && forall i | 0 <= i < |r| :: IsBody(html, lower, tag, bs[i], r[i])
  {
    var bs, _ := IterBlocks(html, lower, tag);
    forall i | 0 <= i < |bs| ensures IsBody(html, lower, tag, bs[i], Cut(html, bs[i].bodyStart, bs[i].bodyEnd)) {
      BodyOf(html, lower, tag, bs[i]);
    }
    r := seq(|bs|, i requires 0 <= i < |bs| => Cut(html, bs[i].bodyStart, bs[i].bodyEnd));
  }
}
