/**
 IPv4 addresses as the parsers print them, and the normalisation of switch names
 (`_normalized_ipv4` in src/aruba_session_tracker/parsers/global_users.py:310-314 and `_normalize_switch` in
 src/aruba_session_tracker/services/tracker.py:741-742).
 */
module Addresses {
  import opened Digits

  type Octet = n: nat | n <= 255

  datatype Ipv4 = Ipv4(a: Octet, b: Octet, c: Octet, d: Octet)

  /** `str(IPv4Address(...))`. */
  function Text(ip: Ipv4): string {
    Decimal(ip.a) + "." + Decimal(ip.b) + "." + Decimal(ip.c) + "." + Decimal(ip.d)
  }

  /** What the character tables say: which characters `strip` removes, and what `casefold` makes of each. */
  datatype Unicode = Unicode(isSpace: char -> bool, fold: char -> string)

  /** Digits and dots are no white space and have no case. */
  ghost predicate Ordinary(u: Unicode) {
    forall c :: IsDigit(c) || c == '.' ==> !u.isSpace(c) && u.fold(c) == [c]
  }

  function StripLeft(u: Unicode, s: string): string {
    if s != "" && u.isSpace(s[0]) then StripLeft(u, s[1..]) else s
  }

  function StripRight(u: Unicode, s: string): string {
    if s != "" && u.isSpace(s[|s| - 1]) then StripRight(u, s[..|s| - 1]) else s
  }

  function DropDots(s: string): string {
    if s != "" && s[|s| - 1] == '.' then DropDots(s[..|s| - 1]) else s
  }

  function FoldAll(u: Unicode, s: string): string {
    if s == "" then "" else u.fold(s[0]) + FoldAll(u, s[1..])
  }

  /** `_normalize_switch`. */
  function NormalizeSwitch(u: Unicode, s: string): string {
    FoldAll(u, DropDots(StripRight(u, StripLeft(u, s))))
  }

  lemma {:induction false} FoldKeeps(u: Unicode, s: string)
    requires Ordinary(u) && forall i :: 0 <= i < |s| ==> IsDigit(s[i]) || s[i] == '.'
    ensures FoldAll(u, s) == s
  {
    if s != "" {
      FoldKeeps(u, s[1..]);
      assert s == [s[0]] + s[1..];
    }
  }

  lemma TextIsPlain(ip: Ipv4)
    ensures var s := Text(ip);
            && s != "" && IsDigit(s[0]) && IsDigit(s[|s| - 1])
            && forall i :: 0 <= i < |s| ==> IsDigit(s[i]) || s[i] == '.'
  {
    var head, last := Decimal(ip.a) + "." + Decimal(ip.b) + "." + Decimal(ip.c) + ".", Decimal(ip.d);
    var s := Text(ip);
    assert s == head + last;
    assert s[0] == Decimal(ip.a)[0] && s[|s| - 1] == last[|last| - 1];
    assert forall i :: 0 <= i < |head| ==> IsDigit(head[i]) || head[i] == '.';
    assert forall i :: 0 <= i < |s| ==> s[i] == if i < |head| then head[i] else last[i - |head|];
  }

  /** Normalising the text of a parsed address changes nothing; in particular it is never empty. */
  lemma SwitchTextKept(u: Unicode, ip: Ipv4)
    requires Ordinary(u)
    ensures NormalizeSwitch(u, Text(ip)) == Text(ip) != ""
  {
    TextIsPlain(ip);
    FoldKeeps(u, Text(ip));
  }
}
