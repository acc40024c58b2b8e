/**
 Token claims, how they extend down a chain (_tokens.py), and the durable record of a token
 (models.py, firewall.py).

 A scope tuple is always `sorted(set(...))` in the source, so it is modelled as the set.  A signed
 token is ideal: `Encoded(c)` decodes only if this firewall signed `c`.
 */
module Tokens {
  import opened Core

  datatype ChainEntry = ChainEntry(agentId: string, jti: Jti, scopes: set<Scope>, ts: Time)

  datatype Claims = Claims(
    jti: Jti, sub: string, iss: string, issuedFor: string,
    scopes: set<Scope>, chain: seq<ChainEntry>, depth: int, maxDepth: int,
    iat: Time, exp: Time, approvalRequired: bool, approvedBy: Option<string>, rootJti: Jti)

  datatype Token = Missing | Garbage(reason: string) | Encoded(claims: Claims)

  datatype TokenMeta = TokenMeta(
    jti: Jti, subjectId: string, parentJti: Option<Jti>, rootJti: Jti,
    depth: int, maxDepth: int, scopes: set<Scope>, chain: seq<ChainEntry>,
    issuedAt: Time, expiresAt: Time, approvalRequired: bool, approvedBy: Option<string>)

  function Jtis(chain: seq<ChainEntry>): (r: seq<Jti>)
    ensures |r| == |chain| && forall i :: 0 <= i < |chain| ==> r[i] == chain[i].jti
  {
    seq(|chain|, i requires 0 <= i < |chain| => chain[i].jti)
  }

  // ------------------------------------------------------------------
  // TokenEngine
  // ------------------------------------------------------------------

  function MintRoot(issuer: string, jti: Jti, sub: string, scopes: set<Scope>,
                    ttl: int, maxDepth: int, now: Time): Claims {
    Claims(jti, sub, issuer, sub, scopes, [], 0, maxDepth, now, now + ttl, false, None, jti)
  }

  function ChainEntryFor(c: Claims, now: Time): ChainEntry {
    ChainEntry(c.sub, c.jti, c.scopes, now)
  }

  function MintChild(issuer: string, jti: Jti, parent: Claims, sub: string, scopes: set<Scope>,
                     exp: Time, approvalRequired: bool, approvedBy: Option<string>, now: Time): Claims {
    Claims(jti, sub, issuer, "agent:" + parent.jti, scopes,
           parent.chain + [ChainEntryFor(parent, now)],
           parent.depth + 1, parent.maxDepth, now, exp, approvalRequired, approvedBy, parent.rootJti)
  }

  // ------------------------------------------------------------------
  // Firewall._persist_token and Firewall._claims_from_metadata
  // ------------------------------------------------------------------

  function MetaOf(c: Claims, parentJti: Option<Jti>): TokenMeta {
    TokenMeta(c.jti, c.sub, parentJti, c.rootJti, c.depth, c.maxDepth, c.scopes, c.chain,
              c.iat, c.exp, c.approvalRequired, c.approvedBy)
  }

  function ClaimsOf(issuer: string, m: TokenMeta): Claims {
    Claims(m.jti, m.subjectId, issuer,
           match m.parentJti case None => m.subjectId case Some(p) => "agent:" + p,
           m.scopes, m.chain, m.depth, m.maxDepth, m.issuedAt, m.expiresAt,
           m.approvalRequired, m.approvedBy, m.rootJti)
  }
}
