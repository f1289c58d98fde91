/** The signed registration text and the constant-time comparison. */
module Security {
  import opened Text

  /** The text a client signs to register: header, protocol version, challenge, lobby name and virtual address. */
  function RegistrationCanonical(challenge: string, lobbyName: string, virtualIp: string): string {
    "MCTIER-SIGNALING-V3\n" + "3" + "\n" + challenge + "\n" + lobbyName + "\n" + virtualIp
  }

  lemma CanonicalShape(challenge: string, lobbyName: string, virtualIp: string)
    ensures RegistrationCanonical(challenge, lobbyName, virtualIp) ==
            "MCTIER-SIGNALING-V3\n3\n" + (challenge + "\n" + (lobbyName + "\n" + virtualIp))
  {}

  /**
   A signature binds all three fields. The challenge is hexadecimal and the
   address is printed by the server, so neither holds a line break; the lobby
   name may hold any number of them.
   */
  lemma SignedTextIsInjective(c1: string, n1: string, ip1: string, c2: string, n2: string, ip2: string)
    requires '\n' !in c1 && '\n' !in c2 && '\n' !in ip1 && '\n' !in ip2
    requires RegistrationCanonical(c1, n1, ip1) == RegistrationCanonical(c2, n2, ip2)
    ensures c1 == c2 && n1 == n2 && ip1 == ip2
  {
    CanonicalShape(c1, n1, ip1);
    CanonicalShape(c2, n2, ip2);
    var header := "MCTIER-SIGNALING-V3\n3\n";
    var body1 := c1 + "\n" + (n1 + "\n" + ip1);
    var body2 := c2 + "\n" + (n2 + "\n" + ip2);
    assert body1 == RegistrationCanonical(c1, n1, ip1)[|header|..];
    assert body2 == RegistrationCanonical(c2, n2, ip2)[|header|..];
    SplitOnceFinds(c1, "\n", n1 + "\n" + ip1);
    SplitOnceFinds(c2, "\n", n2 + "\n" + ip2);
    RSplitOnceFinds(n1, '\n', ip1);
    RSplitOnceFinds(n2, '\n', ip2);
  }

  /** The signed text, line by line. */
  lemma SignedLines(challenge: string, lobbyName: string, virtualIp: string)
    requires '\n' !in challenge && '\n' !in virtualIp
    ensures Split(RegistrationCanonical(challenge, lobbyName, virtualIp), '\n') ==
            ["MCTIER-SIGNALING-V3", "3", challenge] + Split(lobbyName, '\n') + [virtualIp]
  {
    hide Split;
    var tail := lobbyName + ['\n'] + virtualIp;
    LastLine(lobbyName, virtualIp);
    FirstLine(challenge, tail);
    FirstLine("3", challenge + ['\n'] + tail);
    FirstLine("MCTIER-SIGNALING-V3", "3" + ['\n'] + (challenge + ['\n'] + tail));
    assert RegistrationCanonical(challenge, lobbyName, virtualIp) ==
           "MCTIER-SIGNALING-V3" + ['\n'] + ("3" + ['\n'] + (challenge + ['\n'] + tail));
  }

  lemma FirstLine(line: string, rest: string)
    requires '\n' !in line
    ensures Split(line + ['\n'] + rest, '\n') == [line] + Split(rest, '\n')
  {
    hide Split;
    SplitJoin(line, '\n', rest);
    SplitWhole(line, '\n');
  }

  lemma LastLine(text: string, line: string)
    requires '\n' !in line
    ensures Split(text + ['\n'] + line, '\n') == Split(text, '\n') + [line]
  {
    hide Split;
    SplitJoin(text, '\n', line);
    SplitWhole(line, '\n');
  }

  /** A line break in the address would let two different registrations share a signed text. */
  lemma LineBreakInAddressCollides()
    ensures RegistrationCanonical("c", "room", "a\nb") == RegistrationCanonical("c", "room\na", "b")
  {
    assert "room" + "\n" + "a\nb" == "room\na" + "\n" + "b";
  }

  lemma OrXor(diff: bv8, a: bv8, b: bv8)
    ensures diff | (a ^ b) == 0 <==> diff == 0 && a == b
  {}

  /** Compare without an early exit: every byte of equal-length inputs is folded into the verdict. */
  method CtEq(a: seq<bv8>, b: seq<bv8>) returns (equal: bool)
    ensures equal <==> a == b
  {
    if |a| != |b| {
      return false;
    }
    var diff: bv8 := 0;
    for i := 0 to |a|
      invariant diff == 0 <==> a[..i] == b[..i]
    {
      OrXor(diff, a[i], b[i]);
      assert a[..i + 1] == a[..i] + [a[i]] && b[..i + 1] == b[..i] + [b[i]];
      diff := diff | (a[i] ^ b[i]);
    }
    assert a[..|a|] == a && b[..|b|] == b;
    equal := diff == 0;
  }
}
