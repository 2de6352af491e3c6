/** The two byte strings that are signed or hashed to bind a proof: the escrow binding message and
    the length-prefixed transcript encoding (rust/src/crypto.rs). */
module Binding {
  import opened Text

  // ---- Escrow binding message -------------------------------------------------------------

  const DOMAIN_SEPARATION_TAG := "PEERNOTARY_TLSN_ESCROW_V1"

  /** The message's fields, in order; the format string separates them by bars. */
  function Fields(
    chain: nat, escrow: string, trade: string, session: string, proof: string, evidence: string): seq<string>
  {
    [DOMAIN_SEPARATION_TAG, "chain:" + Decimal(chain), "escrow:" + Lower(escrow), "trade:" + trade,
     "session:" + session, "proof_id:" + proof, "evidence:" + evidence]
  }

  function BindingMessage(
    chain: nat, escrow: string, trade: string, session: string, proof: string, evidence: string): string
  {
    Joined(Fields(chain, escrow, trade, session, proof, evidence))
  }

  function Joined(parts: seq<string>): string
    requires parts != []
  {
    if |parts| == 1 then parts[0] else parts[0] + ['|'] + Joined(parts[1..])
  }

  predicate NoBar(s: string) { '|' !in s }

  lemma {:induction false} JoinedInjective(ps: seq<string>, qs: seq<string>)
    requires |ps| == |qs| >= 1
    requires forall i :: 0 <= i < |ps| - 1 ==> NoBar(ps[i]) && NoBar(qs[i])
    requires Joined(ps) == Joined(qs)
    ensures ps == qs
  {
    if |ps| > 1 {
      SplitInjective(ps[0], qs[0], '|', Joined(ps[1..]), Joined(qs[1..]));
      JoinedInjective(ps[1..], qs[1..]);
      assert ps == [ps[0]] + ps[1..] && qs == [qs[0]] + qs[1..];
    }
  }

  lemma PeelPrefix(p: string, b: string, b': string)
    requires p + b == p + b'
    ensures b == b'
  {
    assert b == (p + b)[|p|..];
    assert b' == (p + b')[|p|..];
  }

  lemma FieldsHaveNoBar(
    chain: nat, escrow: string, trade: string, session: string, proof: string, evidence: string)
    requires NoBar(escrow) && NoBar(trade) && NoBar(session) && NoBar(proof)
    ensures forall i :: 0 <= i < 6 ==> NoBar(Fields(chain, escrow, trade, session, proof, evidence)[i])
  {
    assert forall i :: 0 <= i < |escrow| ==> Lower(escrow)[i] == LowerChar(escrow[i]);
  }

  lemma FieldsInjective(
    chain: nat, escrow: string, trade: string, session: string, proof: string, evidence: string,
    chain': nat, escrow': string, trade': string, session': string, proof': string, evidence': string)
    requires Fields(chain, escrow, trade, session, proof, evidence)
          == Fields(chain', escrow', trade', session', proof', evidence')
    ensures chain == chain' && Lower(escrow) == Lower(escrow') && trade == trade'
    ensures session == session' && proof == proof' && evidence == evidence'
  {
    var f := Fields(chain, escrow, trade, session, proof, evidence);
    var f' := Fields(chain', escrow', trade', session', proof', evidence');
    assert forall i :: 0 <= i < 7 ==> f[i] == f'[i];
    PeelPrefix("chain:", Decimal(chain), Decimal(chain'));
    DecimalInjective(chain, chain');
    PeelPrefix("escrow:", Lower(escrow), Lower(escrow'));
    PeelPrefix("trade:", trade, trade');
    PeelPrefix("session:", session, session');
    PeelPrefix("proof_id:", proof, proof');
    PeelPrefix("evidence:", evidence, evidence');
  }

  /** Two bindings share a message exactly when they agree on every field, the escrow address up to
      letter case. The last field, the evidence digest, needs no restriction. */
  lemma BindingMessageInjective(
    chain: nat, escrow: string, trade: string, session: string, proof: string, evidence: string,
    chain': nat, escrow': string, trade': string, session': string, proof': string, evidence': string)
    requires NoBar(escrow) && NoBar(trade) && NoBar(session) && NoBar(proof)
    requires NoBar(escrow') && NoBar(trade') && NoBar(session') && NoBar(proof')
    ensures BindingMessage(chain, escrow, trade, session, proof, evidence)
         == BindingMessage(chain', escrow', trade', session', proof', evidence')
        <==> && chain == chain' && Lower(escrow) == Lower(escrow') && trade == trade'
             && session == session' && proof == proof' && evidence == evidence'
  {
    var f := Fields(chain, escrow, trade, session, proof, evidence);
    var f' := Fields(chain', escrow', trade', session', proof', evidence');
    if Joined(f) == Joined(f') {
      FieldsHaveNoBar(chain, escrow, trade, session, proof, evidence);
      FieldsHaveNoBar(chain', escrow', trade', session', proof', evidence');
      JoinedInjective(f, f');
      FieldsInjective(chain, escrow, trade, session, proof, evidence,
                      chain', escrow', trade', session', proof', evidence');
    }
  }

  lemma JoinedTail(ps: seq<string>, qs: seq<string>)
    requires |ps| == |qs| >= 2 && ps[0] == qs[0]
    ensures Joined(ps[1..]) == Joined(qs[1..]) ==> Joined(ps) == Joined(qs)
  {}

  lemma SameJoinedTail(f: seq<string>, g: seq<string>, k: nat)
    requires |f| == |g| && k + 1 < |f| && f[k] == g[k] && Joined(f[k + 1..]) == Joined(g[k + 1..])
    ensures Joined(f[k..]) == Joined(g[k..])
  {
    assert f[k..][1..] == f[k + 1..] && g[k..][1..] == g[k + 1..];
    JoinedTail(f[k..], g[k..]);
  }

  lemma JoinedTwice(f: seq<string>, k: nat)
    requires k + 2 < |f|
    ensures Joined(f[k..]) == f[k] + ['|'] + (f[k + 1] + ['|'] + Joined(f[k + 2..]))
  {
    assert f[k..][1..] == f[k + 1..] && f[k + 1..][1..] == f[k + 2..];
  }

  lemma Regroup(a: string, b: string, rest: string)
    ensures a + ['|'] + (b + ['|'] + rest) == (a + ['|'] + b) + (['|'] + rest)
  {}

  /** Moving the boundary between two fields to another bar does not show. */
  lemma ShiftedBoundary(f: seq<string>, g: seq<string>)
    requires |f| == |g| == 7 && f[0] == g[0] && f[1] == g[1] && f[2] == g[2] && f[5..] == g[5..]
    requires f[3] + ['|'] + f[4] == g[3] + ['|'] + g[4]
    ensures Joined(f) == Joined(g)
  {
    hide Joined;
    var rest := Joined(f[5..]);
    JoinedTwice(f, 3);
    JoinedTwice(g, 3);
    Regroup(f[3], f[4], rest);
    Regroup(g[3], g[4], rest);
    SameJoinedTail(f, g, 2);
    SameJoinedTail(f, g, 1);
    SameJoinedTail(f, g, 0);
    assert f[0..] == f && g[0..] == g;
  }

  /** The restriction is needed: a bar inside the trade id can imitate a session field. */
  lemma BarsCollide(chain: nat, escrow: string, proof: string, evidence: string)
    ensures BindingMessage(chain, escrow, "1|session:2", "3", proof, evidence)
         == BindingMessage(chain, escrow, "1", "2|session:3", proof, evidence)
  {
    hide Joined;
    var f := Fields(chain, escrow, "1|session:2", "3", proof, evidence);
    var g := Fields(chain, escrow, "1", "2|session:3", proof, evidence);
    assert f[3] + ['|'] + f[4] == g[3] + ['|'] + g[4];
    ShiftedBoundary(f, g);
  }

  // ---- Transcript encoding ----------------------------------------------------------------

  type Byte = x: int | 0 <= x < 256

  /** `(n as u32).to_be_bytes()`: the cast keeps only the low 32 bits. */
  function BigEndian32(n: nat): (b: seq<Byte>)
    ensures |b| == 4
  {
    var m := n % 0x1_0000_0000;
    [m / 0x100_0000, (m / 0x1_0000) % 256, (m / 0x100) % 256, m % 256]
  }

  lemma BigEndian32Injective(m: nat, n: nat)
    requires m < 0x1_0000_0000 && n < 0x1_0000_0000
    requires BigEndian32(m) == BigEndian32(n)
    ensures m == n
  {
    BigEndian32Value(m);
    BigEndian32Value(n);
  }

  lemma BigEndian32Value(m: nat)
    requires m < 0x1_0000_0000
    ensures var b: seq<int> := BigEndian32(m); m == ((b[0] * 256 + b[1]) * 256 + b[2]) * 256 + b[3]
  {
    assert m / 0x1_0000 == (m / 0x100) / 256;
    assert m / 0x100_0000 == (m / 0x1_0000) / 256;
  }

  function TranscriptEncoding(sent: seq<Byte>, received: seq<Byte>): seq<Byte> {
    BigEndian32(|sent|) + sent + BigEndian32(|received|) + received
  }

  /** Fills the digest input piece by piece. */
  method CombineTranscript(sent: seq<Byte>, received: seq<Byte>) returns (combined: seq<Byte>)
    ensures combined == TranscriptEncoding(sent, received)
    ensures |combined| == |sent| + |received| + 8
  {
    combined := BigEndian32(|sent|);
    combined := combined + sent;
    combined := combined + BigEndian32(|received|);
    combined := combined + received;
  }

  /** Below 2^32 sent bytes the encoding determines both transcripts, whatever was received. */
  lemma TranscriptEncodingInjective(
    sent: seq<Byte>, received: seq<Byte>, sent': seq<Byte>, received': seq<Byte>)
    requires |sent| < 0x1_0000_0000 && |sent'| < 0x1_0000_0000
    ensures TranscriptEncoding(sent, received) == TranscriptEncoding(sent', received')
        <==> sent == sent' && received == received'
  {
    var e, e' := TranscriptEncoding(sent, received), TranscriptEncoding(sent', received');
    if e == e' {
      assert e[..4] == BigEndian32(|sent|);
      assert e'[..4] == BigEndian32(|sent'|);
      BigEndian32Injective(|sent|, |sent'|);
      assert sent == e[4..4 + |sent|];
      assert sent' == e'[4..4 + |sent'|];
      assert received == e[8 + |sent|..];
      assert received' == e'[8 + |sent'|..];
    }
  }

  /** At 2^32 bytes the length prefix wraps to zero and two different transcripts coincide. */
  lemma LongTranscriptsCollide()
    ensures var zeros: seq<Byte> := seq(0x1_0000_0000, _ => 0);
            zeros != [] && TranscriptEncoding(zeros, []) == TranscriptEncoding([], zeros)
  {
    var zeros: seq<Byte> := seq(0x1_0000_0000, _ => 0);
    assert BigEndian32(|zeros|) == [0, 0, 0, 0];
    assert BigEndian32(0) == [0, 0, 0, 0];
    var e, e' := TranscriptEncoding(zeros, []), TranscriptEncoding([], zeros);
    assert |e| == |e'| == |zeros| + 8;
    assert forall i :: 0 <= i < |e| ==> e[i] == 0;
    assert forall i :: 0 <= i < |e'| ==> e'[i] == 0;
  }
}
