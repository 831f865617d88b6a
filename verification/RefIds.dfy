/** Payout references: revenue id, "_m_", decimal user id
    (community-service/internal/engine/engine.go:189). */
module RefIds {
  import opened CommunityModels

  function Digit(d: nat): char
    requires d < 10
  {
    '0' + d as char
  }

  /** Decimal text of a natural number. */
  function NatText(n: nat): string {
    if n < 10 then [Digit(n)] else NatText(n / 10) + [Digit(n % 10)]
  }

  /** `fmt.Sprint` of an integer. */
  function IntText(i: int): string {
    if i < 0 then "-" + NatText(-i) else NatText(i)
  }

  function RefId(revenue: Uuid, user: int): string {
    revenue + "_m_" + IntText(user)
  }

  /** Reading decimal text back. */
  function ParseNat(s: string): int {
    if |s| == 0 then 0 else ParseNat(s[..|s| - 1]) * 10 + (s[|s| - 1] as int - '0' as int)
  }

  function ParseInt(s: string): int {
    if |s| > 0 && s[0] == '-' then -ParseNat(s[1..]) else ParseNat(s)
  }

  lemma {:induction false} ParseNatText(n: nat)
    ensures ParseNat(NatText(n)) == n
    ensures |NatText(n)| > 0 && NatText(n)[0] != '-'
  {
    if n >= 10 {
      ParseNatText(n / 10);
      assert NatText(n)[..|NatText(n)| - 1] == NatText(n / 10);
    } else {
      assert ParseNat([]) == 0;
    }
  }

  lemma ParseIntText(i: int)
    ensures ParseInt(IntText(i)) == i
  {
    if i < 0 {
      ParseNatText(-i);
      assert ("-" + NatText(-i))[1..] == NatText(-i);
    } else {
      ParseNatText(i);
    }
  }

  /** Reading a reference back: 36 characters of revenue id, the separator, the user. */
  lemma RefIdParts(revenue: Uuid, user: int)
    ensures var s := RefId(revenue, user);
      |s| > 39 && s[..36] == revenue && s[36..39] == "_m_" && ParseInt(s[39..]) == user
  {
    assert RefId(revenue, user)[39..] == IntText(user);
    assert RefId(revenue, user)[36..39] == "_m_";
    ParseIntText(user);
    if user < 0 {
      ParseNatText(-user);
    } else {
      ParseNatText(user);
    }
  }

  /** The reference determines the revenue and the user, negative ids included. */
  lemma RefIdInjective(r1: Uuid, u1: int, r2: Uuid, u2: int)
    requires RefId(r1, u1) == RefId(r2, u2)
    ensures r1 == r2 && u1 == u2
  {
    RefIdParts(r1, u1);
    RefIdParts(r2, u2);
  }
}
