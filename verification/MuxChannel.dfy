/** What the frames on one directed channel amount to for one stream id. */
module MuxChannel {
  import opened Bytes
  import opened MuxSession

  /** Does the message belong to stream `id`? */
  predicate On(m: Msg, id: u32) {
    (m.Syn? || m.Data? || m.Fin? || m.Rst? || m.Win?) && m.id == id
  }

  predicate Any(ch: seq<Msg>, id: u32) {
    ch != [] && (On(ch[0], id) || Any(ch[1..], id))
  }

  predicate HasSyn(ch: seq<Msg>, id: u32) {
    ch != [] && ((ch[0].Syn? && ch[0].id == id) || HasSyn(ch[1..], id))
  }

  predicate HasRst(ch: seq<Msg>, id: u32) {
    ch != [] && ((ch[0].Rst? && ch[0].id == id) || HasRst(ch[1..], id))
  }

  predicate HasFin(ch: seq<Msg>, id: u32) {
    ch != [] && ((ch[0].Fin? && ch[0].id == id) || HasFin(ch[1..], id))
  }

  /** The first message on the stream is its only SYN. */
  predicate SynLeads(ch: seq<Msg>, id: u32) {
    && ch != []
    && (if On(ch[0], id) then ch[0].Syn? && !HasSyn(ch[1..], id) else SynLeads(ch[1..], id))
  }

  /** All DATA payload in transit, in order. */
  function DataOf(ch: seq<Msg>, id: u32): seq<byte> {
    if ch == [] then []
    else (if ch[0].Data? && ch[0].id == id then ch[0].payload else []) + DataOf(ch[1..], id)
  }

  /** All credit in transit. */
  function CreditOf(ch: seq<Msg>, id: u32): nat {
    if ch == [] then 0
    else (if ch[0].Win? && ch[0].id == id then ch[0].credit else 0) + CreditOf(ch[1..], id)
  }

  /** No DATA follows a FIN. */
  predicate FinLast(ch: seq<Msg>, id: u32) {
    ch != [] ==> FinLast(ch[1..], id) && (ch[0].Fin? && ch[0].id == id ==> DataOf(ch[1..], id) == [])
  }

  lemma {:induction false} AppendAny(ch: seq<Msg>, m: Msg, id: u32)
    ensures Any(ch + [m], id) == (Any(ch, id) || On(m, id))
    ensures HasSyn(ch + [m], id) == (HasSyn(ch, id) || (m.Syn? && m.id == id))
  {
    if ch == [] {
      assert ch + [m] == [m] && [m][1..] == [];
    } else {
      assert (ch + [m])[0] == ch[0] && (ch + [m])[1..] == ch[1..] + [m];
      AppendAny(ch[1..], m, id);
    }
  }

  lemma {:induction false} AppendRstFin(ch: seq<Msg>, m: Msg, id: u32)
    ensures HasRst(ch + [m], id) == (HasRst(ch, id) || (m.Rst? && m.id == id))
    ensures HasFin(ch + [m], id) == (HasFin(ch, id) || (m.Fin? && m.id == id))
  {
    if ch == [] {
      assert ch + [m] == [m] && [m][1..] == [];
    } else {
      assert (ch + [m])[0] == ch[0] && (ch + [m])[1..] == ch[1..] + [m];
      AppendRstFin(ch[1..], m, id);
    }
  }

  lemma {:induction false} AppendData(ch: seq<Msg>, m: Msg, id: u32)
    ensures DataOf(ch + [m], id) == DataOf(ch, id) + (if m.Data? && m.id == id then m.payload else [])
    ensures CreditOf(ch + [m], id) == CreditOf(ch, id) + (if m.Win? && m.id == id then m.credit else 0)
  {
    if ch == [] {
      assert ch + [m] == [m] && [m][1..] == [];
    } else {
      assert (ch + [m])[0] == ch[0] && (ch + [m])[1..] == ch[1..] + [m];
      AppendData(ch[1..], m, id);
    }
  }

  lemma {:induction false} AppendSyn(ch: seq<Msg>, m: Msg, id: u32)
    ensures SynLeads(ch + [m], id) == if Any(ch, id) then SynLeads(ch, id) && !(m.Syn? && m.id == id) else m.Syn? && m.id == id
  {
    if ch == [] {
      assert ch + [m] == [m] && [m][1..] == [];
    } else {
      assert (ch + [m])[0] == ch[0] && (ch + [m])[1..] == ch[1..] + [m];
      AppendSyn(ch[1..], m, id);
      AppendAny(ch[1..], m, id);
    }
  }

  lemma {:induction false} AppendFin(ch: seq<Msg>, m: Msg, id: u32)
    ensures FinLast(ch + [m], id) == (FinLast(ch, id) && !(HasFin(ch, id) && m.Data? && m.id == id && m.payload != []))
  {
    if ch == [] {
      assert ch + [m] == [m] && [m][1..] == [];
    } else {
      assert (ch + [m])[0] == ch[0] && (ch + [m])[1..] == ch[1..] + [m];
      AppendFin(ch[1..], m, id);
      AppendRstFin(ch[1..], m, id);
      AppendData(ch[1..], m, id);
    }
  }

  /** What appending a message does, for every summary at once. */
  lemma Append(ch: seq<Msg>, m: Msg, id: u32)
    ensures Any(ch + [m], id) == (Any(ch, id) || On(m, id))
    ensures HasSyn(ch + [m], id) == (HasSyn(ch, id) || (m.Syn? && m.id == id))
    ensures HasRst(ch + [m], id) == (HasRst(ch, id) || (m.Rst? && m.id == id))
    ensures HasFin(ch + [m], id) == (HasFin(ch, id) || (m.Fin? && m.id == id))
    ensures DataOf(ch + [m], id) == DataOf(ch, id) + (if m.Data? && m.id == id then m.payload else [])
    ensures CreditOf(ch + [m], id) == CreditOf(ch, id) + (if m.Win? && m.id == id then m.credit else 0)
    ensures SynLeads(ch + [m], id) == if Any(ch, id) then SynLeads(ch, id) && !(m.Syn? && m.id == id) else m.Syn? && m.id == id
    ensures FinLast(ch + [m], id) == (FinLast(ch, id) && !(HasFin(ch, id) && m.Data? && m.id == id && m.payload != []))
  {
    AppendAny(ch, m, id);
    AppendRstFin(ch, m, id);
    AppendData(ch, m, id);
    AppendSyn(ch, m, id);
    AppendFin(ch, m, id);
  }

  /** A head that carries no DATA for the stream leaves the data in transit as it is. */
  lemma TailData(ch: seq<Msg>, id: u32)
    requires ch != [] && !(ch[0].Data? && ch[0].id == id)
    ensures DataOf(ch, id) == DataOf(ch[1..], id)
  {
  }

  lemma {:induction false} SilentChannel(ch: seq<Msg>, id: u32)
    requires !Any(ch, id)
    ensures !HasSyn(ch, id) && !HasRst(ch, id) && !HasFin(ch, id) && !SynLeads(ch, id) && FinLast(ch, id)
    ensures DataOf(ch, id) == [] && CreditOf(ch, id) == 0
  {
    if ch != [] {
      SilentChannel(ch[1..], id);
    }
  }

  lemma {:induction false} SynLeadsHasSyn(ch: seq<Msg>, id: u32)
    requires SynLeads(ch, id)
    ensures HasSyn(ch, id) && Any(ch, id)
  {
    if !On(ch[0], id) {
      SynLeadsHasSyn(ch[1..], id);
    }
  }
}
