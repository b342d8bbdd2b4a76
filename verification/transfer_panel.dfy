/**
 * The ownership transfer panel (src/components/market/MarketTransferPanel.tsx):
 * the new owner's id and name, and a confirmation word the player must type.
 */
module TransferPanel {
  import opened Base

  /** The characters `String.prototype.trim` removes: white space and line terminators. */
  const SpaceChars: set<char> := {
    '\t', '\n', '\U{000B}', '\U{000C}', '\r', ' ', '\U{00A0}', '\U{1680}',
    '\U{2000}', '\U{2001}', '\U{2002}', '\U{2003}', '\U{2004}', '\U{2005}',
    '\U{2006}', '\U{2007}', '\U{2008}', '\U{2009}', '\U{200A}',
    '\U{2028}', '\U{2029}', '\U{202F}', '\U{205F}', '\U{3000}', '\U{FEFF}'
  }

  predicate IsSpace(c: char) {
    c in SpaceChars
  }

  /** The number of white-space characters `s` starts with. */
  function LeadingSpaces(s: string): (n: nat)
    ensures n <= |s|
    ensures forall i :: 0 <= i < n ==> IsSpace(s[i])
    ensures n == |s| || !IsSpace(s[n])
  {
    if s == [] || !IsSpace(s[0]) then 0
    else
      assert forall i :: 1 <= i < |s| ==> s[i] == s[1..][i - 1];
      1 + LeadingSpaces(s[1..])
  }

  /** The length of `s` without the white-space characters it ends with. */
  function TrailingStart(s: string): (n: nat)
    ensures n <= |s|
    ensures forall i :: n <= i < |s| ==> IsSpace(s[i])
    ensures n == 0 || !IsSpace(s[n - 1])
  {
    if s == [] || !IsSpace(s[|s| - 1]) then |s|
    else TrailingStart(s[..|s| - 1])
  }

  /** `s` without its leading white space. */
  function TrimStart(s: string): string {
    s[LeadingSpaces(s)..]
  }

  /** `s` without its trailing white space. */
  function TrimEnd(s: string): string {
    s[..TrailingStart(s)]
  }

  /** `s.trim()`. */
  function Trim(s: string): string {
    TrimEnd(TrimStart(s))
  }

  /**
   * The trimmed text is a slice of the input with no white space at either
   * end; everything cut off is white space.
   */
  lemma TrimSpec(s: string)
    ensures exists a, b :: 0 <= a <= b <= |s| && Trim(s) == s[a..b]
              && (forall i :: 0 <= i < a ==> IsSpace(s[i]))
              && (forall i :: b <= i < |s| ==> IsSpace(s[i]))
    ensures Trim(s) == [] || (!IsSpace(Trim(s)[0]) && !IsSpace(Trim(s)[|Trim(s)| - 1]))
  {
    var a := LeadingSpaces(s);
    var t := s[a..];
    var b := a + TrailingStart(t);
    PrefixOfSuffix(s, a, TrailingStart(t));
    forall i | b <= i < |s|
      ensures IsSpace(s[i])
    {
      assert s[i] == t[i - a];
    }
    TrimEnds(s);
    assert Trim(s) == s[a..b];
  }

  /** The first `n` characters of `s[a..]` are `s[a..a + n]`. */
  lemma PrefixOfSuffix(s: string, a: int, n: int)
    requires 0 <= a <= |s| && 0 <= n <= |s| - a
    ensures s[a..][..n] == s[a..a + n]
  {
  }

  /** Neither end of the trimmed text is white space. */
  lemma TrimEnds(s: string)
    ensures Trim(s) == [] || (!IsSpace(Trim(s)[0]) && !IsSpace(Trim(s)[|Trim(s)| - 1]))
  {
    var t := s[LeadingSpaces(s)..];
    var n := TrailingStart(t);
    if n > 0 {
      assert Trim(s)[0] == t[0];
      assert Trim(s)[n - 1] == t[n - 1];
    }
  }

  /** Trimming twice is trimming once. */
  lemma TrimIdempotent(s: string)
    ensures Trim(Trim(s)) == Trim(s)
  {
    TrimEnds(s);
    var r := Trim(s);
    if r != [] {
      assert LeadingSpaces(r) == 0;
      assert TrailingStart(r) == |r|;
    }
  }

  /** The trimmed text is empty exactly when the input is all white space. */
  lemma TrimEmpty(s: string)
    ensures Trim(s) == [] <==> forall i :: 0 <= i < |s| ==> IsSpace(s[i])
  {
    var a := LeadingSpaces(s);
    if a < |s| {
      var t := s[a..];
      assert t[0] == s[a];
      assert TrailingStart(t) > 0;
    }
  }

  /** The confirmation word. */
  const ConfirmWord: string := "DEVRET"

  /** `canTransfer`: a non-blank id and name, and the confirmation word typed. */
  predicate CanTransfer(newOwnerId: string, newOwnerName: string, confirmText: string) {
    Trim(newOwnerId) != "" && Trim(newOwnerName) != "" && confirmText == ConfirmWord
  }

  /** The rule in plain terms: each field has a character other than white space, and the word matches. */
  lemma CanTransferSpec(newOwnerId: string, newOwnerName: string, confirmText: string)
    ensures CanTransfer(newOwnerId, newOwnerName, confirmText) <==>
              && (exists i :: 0 <= i < |newOwnerId| && !IsSpace(newOwnerId[i]))
              && (exists i :: 0 <= i < |newOwnerName| && !IsSpace(newOwnerName[i]))
              && confirmText == ConfirmWord
  {
    TrimEmpty(newOwnerId);
    TrimEmpty(newOwnerName);
  }

  /** The three input fields. */
  datatype Form = Form(newOwnerId: string, newOwnerName: string, confirmText: string)

  /** The arguments of `onTransfer`. */
  datatype Transfer = Transfer(ownerId: string, ownerName: string)

  /** The form after the button, and the call it made, if any. */
  datatype TransferResult = TransferResult(form: Form, call: Option<Transfer>)

  /**
   * `handleTransfer`: when the rule holds, hand on the trimmed id and name and
   * clear all three fields; otherwise call nothing and keep the form.
   */
  function HandleTransfer(f: Form): (r: TransferResult)
    ensures r.call.Some? <==> CanTransfer(f.newOwnerId, f.newOwnerName, f.confirmText)
    ensures r.call.Some? ==> r.call.value.ownerId != "" && r.call.value.ownerName != ""
    ensures r.call.None? ==> r.form == f
  {
    if CanTransfer(f.newOwnerId, f.newOwnerName, f.confirmText) then
      TransferResult(Form("", "", ""), Some(Transfer(Trim(f.newOwnerId), Trim(f.newOwnerName))))
    else TransferResult(f, None)
  }

  /**
   * A transfer passes on names with no white space at either end, and leaves
   * a form that cannot transfer again until it is filled in anew.
   */
  lemma HandleTransferSpec(f: Form)
    requires CanTransfer(f.newOwnerId, f.newOwnerName, f.confirmText)
    ensures var r := HandleTransfer(f);
            && r.form == Form("", "", "")
            && !CanTransfer(r.form.newOwnerId, r.form.newOwnerName, r.form.confirmText)
            && r.call.value.ownerId == Trim(f.newOwnerId) && Trim(r.call.value.ownerId) == r.call.value.ownerId
            && r.call.value.ownerName == Trim(f.newOwnerName) && Trim(r.call.value.ownerName) == r.call.value.ownerName
  {
    TrimIdempotent(f.newOwnerId);
    TrimIdempotent(f.newOwnerName);
  }

  /** Upper case of one character; only the ASCII letters are mapped. */
  function UpperChar(c: char): char {
    if 'a' <= c <= 'z' then (c as int - 32) as char else c
  }

  /** `value.toUpperCase()` on ASCII letters. */
  function Upper(s: string): (r: string)
    ensures |r| == |s| && forall i :: 0 <= i < |s| ==> r[i] == UpperChar(s[i])
  {
    if s == [] then [] else [UpperChar(s[0])] + Upper(s[1..])
  }

  /** The confirmation field stores what was typed, upper-cased. */
  function SetConfirmText(f: Form, typed: string): (r: Form)
    ensures r.newOwnerId == f.newOwnerId && r.newOwnerName == f.newOwnerName
    ensures |r.confirmText| == |typed|
  {
    f.(confirmText := Upper(typed))
  }

  /**
   * The confirmation is accepted for the word typed in any mix of cases, and
   * for nothing else.
   */
  lemma ConfirmAnyCase(f: Form, typed: string)
    ensures SetConfirmText(f, typed).confirmText == ConfirmWord <==>
              |typed| == |ConfirmWord| && forall i :: 0 <= i < |typed| ==>
                typed[i] == ConfirmWord[i] || typed[i] as int == ConfirmWord[i] as int + 32
  {
    var u := Upper(typed);
    if |typed| == |ConfirmWord| && forall i :: 0 <= i < |typed| ==>
         typed[i] == ConfirmWord[i] || typed[i] as int == ConfirmWord[i] as int + 32 {
      assert u == ConfirmWord;
    }
  }

  /** Typing the word in lower case, "devret", confirms. */
  lemma ConfirmLowerCase(f: Form)
    ensures SetConfirmText(f, "devret").confirmText == ConfirmWord
  {
    var d := Upper("devret");
    assert d[0] == 'D' && d[1] == 'E' && d[2] == 'V' && d[3] == 'R' && d[4] == 'E' && d[5] == 'T';
  }
}
