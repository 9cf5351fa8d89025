/** The verification-code helpers of the Supabase client module: drawing a
    six-digit code, storing it with a fifteen-minute expiry in the
    `email_verification_codes` table, and checking a code through the
    `verify_email_code` stored procedure, failing closed. */
module VerificationCodes {
  import opened Util

  // ------------------------------------------------- decimal rendering

  predicate IsDigit(c: char) {
    '0' <= c <= '9'
  }

  predicate AllDigits(s: string) {
    forall i :: 0 <= i < |s| ==> IsDigit(s[i])
  }

  function DigitChar(d: nat): (c: char)
    requires d < 10
    ensures IsDigit(c) && c as int - '0' as int == d
  {
    ('0' as int + d) as char
  }

  function Pow10(k: nat): (r: nat)
    ensures r >= 1
  {
    if k == 0 then 1 else 10 * Pow10(k - 1)
  }

  /** The decimal digits of a non-negative integer, most significant first,
      with no leading zero. This is what `Number.prototype.toString()` gives
      for integers below 10^21 that are exact doubles, a range that takes in
      every code; above it JavaScript switches to exponent notation. */
  function Decimal(n: nat): (s: string)
    ensures |s| >= 1 && AllDigits(s)
    decreases n
  {
    if n < 10 then [DigitChar(n)] else Decimal(n / 10) + [DigitChar(n % 10)]
  }

  /** The number a string of decimal digits denotes. */
  function DigitsValue(s: string): (v: nat)
    requires AllDigits(s)
  {
    if s == [] then 0 else 10 * DigitsValue(s[..|s| - 1]) + (s[|s| - 1] as int - '0' as int)
  }

  /** The decimal rendering is made of digits, starts with a non-zero digit
      unless the number is 0, and denotes the number it renders. */
  lemma {:induction false} DecimalDenotes(n: nat)
    ensures |Decimal(n)| >= 1 && AllDigits(Decimal(n))
    ensures n > 0 ==> Decimal(n)[0] != '0'
    ensures DigitsValue(Decimal(n)) == n
    decreases n
  {
    if n >= 10 {
      DecimalDenotes(n / 10);
      var s := Decimal(n);
      assert s[..|s| - 1] == Decimal(n / 10);
    }
  }

  /** A number with k digits (between 10^(k-1) and 10^k - 1) renders as k characters. */
  lemma {:induction false} DecimalLength(n: nat, k: nat)
    requires k >= 1 && Pow10(k - 1) <= n < Pow10(k)
    ensures |Decimal(n)| == k
    decreases k
  {
    if n >= 10 {
      assert Pow10(1) == 10;
      assert Pow10(k - 1) == 10 * Pow10(k - 2);
      DecimalLength(n / 10, k - 1);
    }
  }

  /** A digit string with no leading zero is bounded below by 10^(|s|-1). */
  lemma {:induction false} LeadingDigitBound(s: string)
    requires |s| >= 1 && AllDigits(s) && s[0] != '0'
    ensures DigitsValue(s) >= Pow10(|s| - 1)
    decreases |s|
  {
    if |s| > 1 {
      var t := s[..|s| - 1];
      assert t[0] == s[0];
      LeadingDigitBound(t);
    }
  }

  /** Rendering the value of a digit string with no leading zero gives the
      string back: `Decimal` and `DigitsValue` are inverse on such strings. */
  lemma {:induction false} DecimalOfDigitsValue(s: string)
    requires |s| >= 1 && AllDigits(s) && s[0] != '0'
    ensures Decimal(DigitsValue(s)) == s
    decreases |s|
  {
    var d := s[|s| - 1] as int - '0' as int;
    if |s| > 1 {
      var t := s[..|s| - 1];
      assert t[0] == s[0];
      LeadingDigitBound(t);
      DecimalOfDigitsValue(t);
      var v := DigitsValue(s);
      assert v == 10 * DigitsValue(t) + d;
      assert v / 10 == DigitsValue(t) && v % 10 == d;
      assert s == t + [s[|s| - 1]];
    }
  }

  // ------------------------------------------------------- code draw

  /** The integer part of `Math.random() * 900000`: the random draw. */
  type Draw = k: int | 0 <= k < 900000

  /** `Math.floor(100000 + Math.random() * 900000).toString()`, with the
      random part given as the draw `k`. Every code is six digits, does not
      start with 0, and denotes 100000 + k. */
  function GenerateCode(k: Draw): (code: string)
    ensures |code| == 6 && AllDigits(code) && code[0] != '0'
    ensures DigitsValue(code) == 100000 + k
  {
    var n := 100000 + k;
    DecimalDenotes(n);
    assert Pow10(5) == 100000 && Pow10(6) == 1000000;
    DecimalLength(n, 6);
    Decimal(n)
  }

  /** Every six-digit string without a leading zero is drawn by exactly one
      `k`: the draw is uniform over all such codes. */
  lemma CodeHasUniqueDraw(code: string, k1: Draw, k2: Draw)
    requires |code| == 6 && AllDigits(code) && code[0] != '0'
    ensures 100000 <= DigitsValue(code) <= 999999
    ensures GenerateCode((DigitsValue(code) - 100000) as Draw) == code
    ensures GenerateCode(k1) == GenerateCode(k2) ==> k1 == k2
  {
    LeadingDigitBound(code);
    assert Pow10(5) == 100000;
    DigitsValueBelow(code);
    assert Pow10(6) == 1000000;
    DecimalOfDigitsValue(code);
  }

  /** A digit string of length k denotes less than 10^k. */
  lemma {:induction false} DigitsValueBelow(s: string)
    requires AllDigits(s)
    ensures DigitsValue(s) < Pow10(|s|)
    decreases |s|
  {
    if s != [] {
      DigitsValueBelow(s[..|s| - 1]);
    }
  }

  // ---------------------------------------------------- the code table

  /** One row of `email_verification_codes`; `expiresAt` is in milliseconds. */
  datatype CodeRow = CodeRow(userEmail: string, code: string, expiresAt: int)

  const SEND_FAILED := "Failed to send verification code"
  const CODE_LIFETIME_MS := 15 * 60 * 1000

  /** The rows stored for one email, oldest first. */
  function RowsFor(rows: seq<CodeRow>, email: string): (r: seq<CodeRow>)
    ensures |r| <= |rows|
    ensures forall i :: 0 <= i < |r| ==> r[i] in rows && r[i].userEmail == email
  {
    if rows == [] then []
    else if rows[0].userEmail == email then [rows[0]] + RowsFor(rows[1..], email)
    else RowsFor(rows[1..], email)
  }

  /** A row is among an email's rows exactly when it is stored with that email. */
  lemma {:induction false} RowsForExactly(rows: seq<CodeRow>, email: string, x: CodeRow)
    ensures x in RowsFor(rows, email) <==> x in rows && x.userEmail == email
    decreases |rows|
  {
    if rows != [] {
      RowsForExactly(rows[1..], email, x);
      assert rows == [rows[0]] + rows[1..];
    }
  }

  /** Appending one row adds it to the rows of its own email and leaves the
      rows of every other email as they were. */
  lemma {:induction false} RowsForAppend(rows: seq<CodeRow>, row: CodeRow, email: string)
    ensures RowsFor(rows + [row], email) ==
              if row.userEmail == email then RowsFor(rows, email) + [row] else RowsFor(rows, email)
    decreases |rows|
  {
    if rows != [] {
      assert (rows + [row])[1..] == rows[1..] + [row];
      RowsForAppend(rows[1..], row, email);
    }
  }

  /** The table, seen as the sequence of rows in insertion order. */
  class CodeTable {
    var rows: seq<CodeRow>

    constructor ()
      ensures rows == []
    {
      rows := [];
    }

    /** `sendVerificationCode(email)`: draw a code, insert one row that
        expires 15 minutes after `now`, and return the code. `insertFails`
        is the insert's error; the insert is taken to be all-or-nothing, and
        on error no code is returned. Earlier rows, including earlier codes
        for the same email, are left in place. */
    method SendVerificationCode(email: string, draw: Draw, now: int, insertFails: bool)
      returns (r: Settled<string>)
      modifies this
      ensures insertFails ==> r == Rejected(SEND_FAILED) && rows == old(rows)
      ensures !insertFails ==>
                && r == Resolved(GenerateCode(draw))
                && rows == old(rows) + [CodeRow(email, r.value, now + 900_000)]
    {
      var code := GenerateCode(draw);
      var expiresAt := now + CODE_LIFETIME_MS;
      if insertFails {
        return Rejected(SEND_FAILED);
      }
      rows := rows + [CodeRow(email, code, expiresAt)];
      return Resolved(code);
    }
  }

  // ------------------------------------------------------ code check

  /** What the `verify_email_code` call reports: an error, or its data. */
  datatype RpcResult = RpcError(message: string) | RpcData(valid: bool)

  /** `verifyCode(email, code)`: the procedure's boolean when it answers,
      and `false` when it reports an error, so an infrastructure failure
      never counts as a valid code. */
  function VerifyCode(email: string, code: string, rpc: (string, string) -> RpcResult): (valid: bool)
    ensures valid <==> rpc(email, code) == RpcData(true)
    ensures rpc(email, code).RpcError? ==> !valid
  {
    match rpc(email, code)
    case RpcError(_) => false
    case RpcData(v) => v
  }
}
