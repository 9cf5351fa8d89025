/** The six-cell code entry form of the e-mail verification page: each cell
    holds at most one UTF-16 code unit, focus moves between cells as the user
    types, and submitting joins the cells and asks the auth context to
    verify the code. `verifyEmail` and `sendCode` are the functions the form
    obtains from `useAuth()`; here they are passed in as their outcomes. */
module VerifyEmailForm {
  import opened Util

  const CELLS := 6

  const INCOMPLETE_CODE := "Poora 6-digit code enter karein"
  const EMAIL_MISSING := "Email missing hai"
  const INVALID_CODE := "Invalid code. Dobara try karein."
  const VERIFY_FAILED := "Verification mein error aya"
  const RESEND_FAILED := "Code bhejne mein error aya"
  const BACKSPACE := "Backspace"

  /** `s.length` in JavaScript: the number of UTF-16 code units, so a
      character outside the Basic Multilingual Plane counts twice. */
  function Utf16Length(s: string): (n: nat)
    ensures |s| <= n <= 2 * |s|
    ensures |s| == 1 ==> (n == 2 <==> s[0] > '\U{FFFF}')
  {
    if s == [] then 0 else (if s[0] > '\U{FFFF}' then 2 else 1) + Utf16Length(s[1..])
  }

  /** The UTF-16 length of a concatenation is the sum of the lengths. */
  lemma {:induction false} Utf16LengthAppend(a: string, b: string)
    ensures Utf16Length(a + b) == Utf16Length(a) + Utf16Length(b)
    decreases |a|
  {
    if a == [] {
      assert a + b == b;
    } else {
      assert (a + b)[0] == a[0] && (a + b)[1..] == a[1..] + b;
      Utf16LengthAppend(a[1..], b);
    }
  }

  /** `cells.join('')`: no cells give the empty string, one cell gives
      itself, and joining distributes over splitting the cells
      (`JoinAppend`). */
  function Join(cells: seq<string>): (r: string)
    ensures cells == [] ==> r == ""
    ensures |cells| == 1 ==> r == cells[0]
  {
    if cells == [] then "" else cells[0] + Join(cells[1..])
  }

  /** Joining two runs of cells is joining each and concatenating. */
  lemma {:induction false} JoinAppend(a: seq<string>, b: seq<string>)
    ensures Join(a + b) == Join(a) + Join(b)
    decreases |a|
  {
    if a == [] {
      assert a + b == b;
    } else {
      assert (a + b)[0] == a[0] && (a + b)[1..] == a[1..] + b;
      JoinAppend(a[1..], b);
    }
  }

  /** How many cells hold something. */
  function FilledCount(cells: seq<string>): (n: nat)
    ensures n <= |cells|
  {
    if cells == [] then 0 else (if cells[0] != "" then 1 else 0) + FilledCount(cells[1..])
  }

  /** Every cell passes the `value.length > 1` guard: it holds at most one
      UTF-16 code unit, so it is empty or one character of the Basic
      Multilingual Plane. */
  predicate AtMostOneUnit(cells: seq<string>) {
    forall i :: 0 <= i < |cells| ==> Utf16Length(cells[i]) <= 1
  }

  /** When every cell holds at most one code unit, the joined code is as
      long as the number of filled cells, in code units and in characters. */
  lemma {:induction false} JoinLength(cells: seq<string>)
    requires AtMostOneUnit(cells)
    ensures Utf16Length(Join(cells)) == FilledCount(cells)
    ensures |Join(cells)| == FilledCount(cells)
    decreases |cells|
  {
    if cells != [] {
      assert AtMostOneUnit(cells[1..]) by {
        forall i | 0 <= i < |cells| - 1 ensures Utf16Length(cells[1..][i]) <= 1 {
          assert cells[1..][i] == cells[i + 1];
        }
      }
      JoinLength(cells[1..]);
      Utf16LengthAppend(cells[0], Join(cells[1..]));
      assert Utf16Length(cells[0]) <= 1;
    }
  }

  /** Every cell is filled exactly when the filled count is the cell count. */
  lemma {:induction false} FilledCountFull(cells: seq<string>)
    ensures FilledCount(cells) == |cells| <==> forall i :: 0 <= i < |cells| ==> cells[i] != ""
    decreases |cells|
  {
    if cells != [] {
      FilledCountFull(cells[1..]);
      if FilledCount(cells) == |cells| {
        forall i | 0 <= i < |cells| ensures cells[i] != "" {
          if i > 0 { assert cells[i] == cells[1..][i - 1]; }
        }
      }
      if forall i :: 0 <= i < |cells| ==> cells[i] != "" {
        assert forall i :: 0 <= i < |cells| - 1 ==> cells[1..][i] == cells[i + 1];
      }
    }
  }

  /** The length check of `handleSubmit`: with one code unit at most per
      cell, the joined code has as many code units as there are cells
      exactly when no cell is empty. */
  lemma JoinedFullIffAllFilled(cells: seq<string>)
    requires AtMostOneUnit(cells)
    ensures Utf16Length(Join(cells)) == |cells| <==> forall i :: 0 <= i < |cells| ==> cells[i] != ""
    ensures |Join(cells)| == Utf16Length(Join(cells))
  {
    JoinLength(cells);
    FilledCountFull(cells);
  }

  class Form {
    /** The six cells, `code` in the component's state. */
    const code: array<string>
    var error: string
    var loading: bool
    var success: bool

    ghost predicate Valid()
      reads this, code
    {
      code.Length == CELLS && AtMostOneUnit(code[..])
    }

    /** The initial state: six empty cells, no error, not loading, not verified. */
    constructor ()
      ensures Valid() && fresh(code)
      ensures code[..] == ["", "", "", "", "", ""]
      ensures error == "" && !loading && !success
    {
      code := new string[CELLS](_ => "");
      error := "";
      loading := false;
      success := false;
      new;
      assert code[..] == ["", "", "", "", "", ""];
    }

    /** `handleChange(index, value)`: a value longer than one UTF-16 code
        unit is ignored (a character outside the Basic Multilingual Plane
        included); otherwise cell `index` alone takes the value. The result
        is the cell to focus next, if any: the following one, when the value
        is non-empty and the cell is not the last. The guard checks the
        length only, so any single code unit is accepted, digit or not. */
    method HandleChange(index: nat, value: string) returns (focusNext: Option<nat>)
      requires Valid() && index < CELLS
      modifies code
      ensures Valid()
      ensures Utf16Length(value) > 1 ==> code[..] == old(code[..]) && focusNext == None
      ensures Utf16Length(value) <= 1 ==> code[..] == old(code[..])[index := value]
      ensures focusNext == (if Utf16Length(value) <= 1 && value != "" && index < CELLS - 1 then Some(index + 1) else None)
    {
      if Utf16Length(value) > 1 {
        return None;
      }
      code[index] := value;
      if value != "" && index < CELLS - 1 {
        focusNext := Some(index + 1);
      } else {
        focusNext := None;
      }
    }

    /** `handleKeyDown(index, e)`: Backspace in an empty cell other than the
        first moves the focus to the previous cell; nothing else happens. */
    method HandleKeyDown(index: nat, key: string) returns (focusPrevious: Option<nat>)
      requires Valid() && index < CELLS
      ensures focusPrevious.Some? <==> key == BACKSPACE && code[index] == "" && index > 0
      ensures focusPrevious.Some? ==> focusPrevious.value == index - 1
    {
      if key == BACKSPACE && code[index] == "" && index > 0 {
        focusPrevious := Some(index - 1);
      } else {
        focusPrevious := None;
      }
    }

    /** `handleSubmit(e)`. The checks run in order: a code with an empty
        cell, then a missing e-mail, each set its error and stop before any
        verification. Otherwise `verifyEmail(email, joinedCode)` is called
        once and its outcome decides `success` or `error`; `loading` is
        false again at the end, and an early stop leaves it alone. The result is the code passed to
        `verifyEmail`, or `None` when it was not called. */
    method HandleSubmit(email: string, verifyEmail: (string, string) -> Settled<bool>)
      returns (submitted: Option<string>)
      requires Valid()
      modifies this
      ensures Valid() && code[..] == old(code[..])
      ensures loading == (if submitted.Some? then false else old(loading))
      ensures submitted.Some? <==> (forall i :: 0 <= i < CELLS ==> code[i] != "") && email != ""
      ensures submitted.Some? ==> submitted.value == Join(code[..]) && Utf16Length(submitted.value) == |submitted.value| == CELLS
      ensures (exists i :: 0 <= i < CELLS && code[i] == "") ==>
                error == INCOMPLETE_CODE && success == old(success)
      ensures (forall i :: 0 <= i < CELLS ==> code[i] != "") && email == "" ==>
                error == EMAIL_MISSING && success == old(success)
      ensures submitted.Some? ==>
                match verifyEmail(email, submitted.value)
                case Resolved(true) => success && error == ""
                case Resolved(false) => error == INVALID_CODE && success == old(success)
                case Rejected(reason) => error == OrElse(reason, VERIFY_FAILED) && success == old(success)
    {
      error := "";
      var verificationCode := Join(code[..]);
      JoinedFullIffAllFilled(code[..]);
      if Utf16Length(verificationCode) != CELLS {
        error := INCOMPLETE_CODE;
        return None;
      }
      if email == "" {
        error := EMAIL_MISSING;
        return None;
      }
      loading := true;
      submitted := Some(verificationCode);
      match verifyEmail(email, verificationCode) {
        case Resolved(isValid) =>
          if isValid {
            success := true;
          } else {
            error := INVALID_CODE;
          }
        case Rejected(reason) =>
          error := OrElse(reason, VERIFY_FAILED);
      }
      loading := false;
    }

    /** `handleResend()`: with no e-mail nothing happens; otherwise the error
        is cleared, `sendCode(email)` is called once, a failure sets the
        resend error, and `loading` ends false. The result says whether
        `sendCode` was called. */
    method HandleResend(email: string, sendCode: string -> Settled<()>) returns (sent: bool)
      requires Valid()
      modifies this
      ensures Valid() && code[..] == old(code[..])
      ensures sent <==> email != ""
      ensures !sent ==> error == old(error) && loading == old(loading) && success == old(success)
      ensures sent ==> !loading && success == old(success)
      ensures sent ==> error == (if sendCode(email).Rejected? then RESEND_FAILED else "")
    {
      if email == "" {
        return false;
      }
      loading := true;
      error := "";
      if sendCode(email).Rejected? {
        error := RESEND_FAILED;
      }
      loading := false;
      return true;
    }
  }
}
