/** The signed identity token. The signature scheme itself is not modelled: a token is the
    caller's role, id and the server secret joined by '.', and verification accepts exactly the
    strings of that shape that carry the server's secret. What the server relies on is kept:
    verifying a token that was signed with the same secret gives back the signed claims, and a
    token signed with another secret is refused. */
module Token {
  import opened Common
  import opened Text
  import opened Schema

  /** The payload signed at register and login: `{ id, role }`. */
  datatype Claims = Claims(id: Id, role: Role)

  /** `jwt.sign({ id, role }, JWT_SECRET)`. */
  function Sign(secret: nat, c: Claims): (t: string)
    ensures t != [] && ' ' !in t
  {
    var t := RoleName(c.role) + "." + Digits(c.id) + "." + Digits(secret);
    assert ' ' !in RoleName(c.role);
    assert forall i :: 0 <= i < |t| ==>
      (t[i] in RoleName(c.role) || t[i] == '.' || t[i] in Digits(c.id) || t[i] in Digits(secret));
    t
  }

  /** `jwt.verify(token, JWT_SECRET)`: the decoded claims, or None when the token does not
      carry the secret or is not of the signed shape. */
  function Verify(secret: nat, token: string): (r: Option<Claims>)
    ensures r.Some? ==>
      && |Split(token, '.')| == 3 && Split(token, '.')[2] == Digits(secret)
      && Split(token, '.')[0] == RoleName(r.value.role)
      && Split(token, '.')[1] != [] && AllDigits(Split(token, '.')[1])
      && r.value.id == ParseDigits(Split(token, '.')[1])
  {
    var fields := Split(token, '.');
    if |fields| == 3 && ParseRole(fields[0]).Some? && fields[1] != [] && AllDigits(fields[1])
       && fields[2] == Digits(secret)
    then Some(Claims(ParseDigits(fields[1]), ParseRole(fields[0]).value))
    else None
  }

  lemma SignedFields(secret: nat, c: Claims)
    ensures Split(Sign(secret, c), '.') == [RoleName(c.role), Digits(c.id), Digits(secret)]
  {
    var r, d, k := RoleName(c.role), Digits(c.id), Digits(secret);
    assert Sign(secret, c) == r + ['.'] + (d + ['.'] + k);
    SplitAtFirstSeparator(r, '.', d + ['.'] + k);
    SplitAtFirstSeparator(d, '.', k);
    SplitWithoutSeparator(k, '.');
  }

  /** Verifying with the secret a token was signed with yields exactly the signed claims. */
  lemma VerifySigned(secret: nat, c: Claims)
    ensures Verify(secret, Sign(secret, c)) == Some(c)
  {
    SignedFields(secret, c);
    ParseDigitsOfDigits(c.id);
  }

  /** A token signed with one secret does not verify under another. */
  lemma VerifyOtherSecret(signer: nat, verifier: nat, c: Claims)
    requires signer != verifier
    ensures Verify(verifier, Sign(signer, c)).None?
  {
    SignedFields(signer, c);
    if Digits(signer) == Digits(verifier) {
      DigitsInjective(signer, verifier);
    }
  }

  /** The text `null`, which is what a page sends when it has no stored token, never verifies. */
  lemma NullDoesNotVerify(secret: nat)
    ensures Verify(secret, "null").None?
  {
    SplitWithoutSeparator("null", '.');
  }
}
