/**
 Cutting a byte string to a budget without splitting a UTF-8 sequence. Well-formed
 sequences are those of section 4 of RFC 3629.
 */
module RuneCut {

  newtype Byte = x: int | 0 <= x < 256

  type Bytes = seq<Byte>

  predicate IsTail(b: Byte) {
    0x80 <= b <= 0xBF
  }

  /** utf8.RuneStart: anything but a continuation byte. */
  predicate RuneStart(b: Byte) {
    !IsTail(b)
  }

  /** The length the lead byte announces, 0 for a byte that cannot lead. */
  function LeadLength(b: Byte): nat {
    if b <= 0x7F then 1
    else if 0xC2 <= b <= 0xDF then 2
    else if 0xE0 <= b <= 0xEF then 3
    else if 0xF0 <= b <= 0xF4 then 4
    else 0
  }

  /** The second byte's narrower range after some lead bytes. */
  predicate SecondFits(lead: Byte, second: Byte) {
    && IsTail(second)
    && (lead == 0xE0 ==> 0xA0 <= second)
    && (lead == 0xED ==> second <= 0x9F)
    && (lead == 0xF0 ==> 0x90 <= second)
    && (lead == 0xF4 ==> second <= 0x8F)
  }

  predicate StartsWithRune(s: Bytes) {
    && s != []
    && var n := LeadLength(s[0]);
    && 0 < n <= |s|
    && (n > 1 ==> SecondFits(s[0], s[1]))
    && forall i | 2 <= i < n :: IsTail(s[i])
  }

  predicate ValidUtf8(s: Bytes) {
    s == [] || (StartsWithRune(s) && ValidUtf8(s[LeadLength(s[0])..]))
  }

  /** A prefix of valid text is valid exactly when the byte after it starts a rune. */
  lemma {:induction false} ValidPrefixIff(s: Bytes, i: nat)
    requires ValidUtf8(s) && i < |s|
    ensures ValidUtf8(s[..i]) <==> RuneStart(s[i])
    decreases |s|
  {
    var n := LeadLength(s[0]);
    if i >= n {
      ValidPrefixIff(s[n..], i - n);
      assert s[..i][n..] == s[n..][..i - n];
    }
  }

  /** Within any four consecutive positions of valid text one starts a rune. */
  lemma {:induction false} RuneStartsAreNear(s: Bytes, i: nat)
    requires ValidUtf8(s) && i < |s|
    ensures exists j :: 0 <= j <= i && i - 3 <= j && RuneStart(s[j])
    decreases |s|
  {
    var n := LeadLength(s[0]);
    if i < n {
      assert RuneStart(s[0]);
    } else {
      RuneStartsAreNear(s[n..], i - n);
      var j :| 0 <= j <= i - n && i - n - 3 <= j && RuneStart(s[n..][j]);
      assert RuneStart(s[n + j]);
    }
  }

  /**
   truncateAtRuneBoundary. For any bytes: the prefix up to the last boundary within the
   budget, which gives up at most three bytes exactly when there is nothing more to
   give up or one of the last four positions of the budget starts a rune.
   */
  method TruncateAtRuneBoundary(s: Bytes, maxBytes: int) returns (prefix: Bytes)
    ensures prefix <= s
    ensures maxBytes <= 0 ==> prefix == []
    ensures maxBytes >= 0 ==> |prefix| <= maxBytes
    ensures 0 < maxBytes && |s| <= maxBytes ==> prefix == s
    ensures 0 < maxBytes < |s| ==>
              && (prefix == [] || RuneStart(s[|prefix|]))
              && forall j | |prefix| < j <= maxBytes :: !RuneStart(s[j])
    ensures 0 < maxBytes < |s| ==>
              (|prefix| + 3 >= maxBytes
               <==> maxBytes <= 3 || exists j :: maxBytes - 3 <= j <= maxBytes && RuneStart(s[j]))
    ensures ValidUtf8(s) ==> ValidUtf8(prefix)
    ensures ValidUtf8(s) ==> forall n: nat | n <= |s| && n <= maxBytes && ValidUtf8(s[..n]) :: n <= |prefix|
    ensures ValidUtf8(s) && 0 <= maxBytes ==> |prefix| + 3 >= if |s| <= maxBytes then |s| else maxBytes
  {
    if maxBytes <= 0 {
      return [];
    }
    if |s| <= maxBytes {
      return s;
    }
    var cut := maxBytes;
    while cut > 0 && !RuneStart(s[cut])
      invariant 0 <= cut <= maxBytes
      invariant forall j | cut < j <= maxBytes :: !RuneStart(s[j])
    {
      cut := cut - 1;
    }
    if ValidUtf8(s) {
      ValidPrefixIff(s, cut);
      RuneStartsAreNear(s, maxBytes);
      forall n: nat | n <= maxBytes && ValidUtf8(s[..n])
        ensures n <= cut
      {
        ValidPrefixIff(s, n);
      }
    }
    return s[..cut];
  }

  /** Where it does not hold: continuation bytes alone are cut to nothing. */
  method CutStrayContinuations(s: Bytes, maxBytes: nat) returns (prefix: Bytes)
    requires maxBytes < |s| && forall i | 0 <= i < |s| :: IsTail(s[i])
    ensures prefix == []
  {
    prefix := TruncateAtRuneBoundary(s, maxBytes);
  }
}
