/** The mail pool of internal/biz/mail.go: sign-in mails are handed to the
    configured mail accounts in turn. */
module Mail {

  datatype MailAccount = MailAccount(host: string, port: int, username: string, password: string)

  /** A MailClient: the account; its SMTP dialer is transport and is not modelled. */
  datatype MailClient = MailClient(info: MailAccount)

  /** The headers of a verification mail, and the code its HTML body shows. */
  datatype Message = Message(from: string, to: string, subject: string, code: string)

  const Subject := "Your verification code"

  /** makeMessage: from the client's user name, to the recipient, fixed subject. */
  function MakeMessage(client: MailClient, toMail: string, code: string): (m: Message)
    ensures m.from == client.info.username && m.to == toMail
    ensures m.subject == Subject && m.code == code
  {
    Message(client.info.username, toMail, Subject, code)
  }

  /** One message handed to the sending goroutine, with the client that sends it. */
  datatype Dispatch = Dispatch(client: nat, msg: Message)

  /** What `mails` successive sends hand over when the pool's index starts at
      `start`: the i-th mail goes to client (start + i) mod the number of clients. */
  function Sends(clients: seq<MailClient>, start: nat, mails: seq<(string, string)>): (d: seq<Dispatch>)
    requires |clients| > 0
    ensures |d| == |mails|
    decreases |mails|
  {
    if |mails| == 0 then []
    else
      var i := (start + |mails| - 1) % |clients|;
      var last := mails[|mails| - 1];
      Sends(clients, start, mails[..|mails| - 1]) + [Dispatch(i, MakeMessage(clients[i], last.0, last.1))]
  }

  class MailPool {
    var index: int
    var clients: seq<MailClient>
    /** What SendMail hands to its goroutines, oldest first. */
    var dispatched: seq<Dispatch>

    ghost predicate Valid()
      reads this
    {
      index >= 0
    }

    /** NewMailPool with NewMailClients: index 0 and one client per configured account, in order. */
    constructor (accounts: seq<MailAccount>)
      ensures Valid() && index == 0 && dispatched == []
      ensures |clients| == |accounts|
      ensures forall i :: 0 <= i < |accounts| ==> clients[i].info == accounts[i]
    {
      var mailClients: seq<MailClient> := [];
      for i := 0 to |accounts|
        invariant |mailClients| == i
        invariant forall j :: 0 <= j < i ==> mailClients[j].info == accounts[j]
      {
        mailClients := mailClients + [MailClient(accounts[i])];
      }
      index := 0;
      clients := mailClients;
      dispatched := [];
    }

    /** SendMail: the client at index mod the number of clients sends the
        message; the index then moves on by one. */
    method SendMail(toMail: string, code: string)
      requires Valid() && |clients| > 0
      modifies this
      ensures Valid() && clients == old(clients)
      ensures index == old(index) + 1
      ensures dispatched == old(dispatched) +
        [Dispatch(old(index) % |clients|, MakeMessage(clients[old(index) % |clients|], toMail, code))]
    {
      var i := index % |clients|;
      var msg := MakeMessage(clients[i], toMail, code);
      dispatched := dispatched + [Dispatch(i, msg)];
      index := index + 1;
    }
  }

  /** Sending a list of mails one after another. */
  method SendAll(pool: MailPool, mails: seq<(string, string)>)
    requires pool.Valid() && |pool.clients| > 0
    modifies pool
    ensures pool.Valid() && pool.clients == old(pool.clients)
    ensures pool.index == old(pool.index) + |mails|
    ensures pool.dispatched == old(pool.dispatched) + Sends(pool.clients, old(pool.index), mails)
  {
    ghost var start := pool.index;
    for k := 0 to |mails|
      invariant pool.Valid() && pool.clients == old(pool.clients)
      invariant pool.index == start + k
      invariant pool.dispatched == old(pool.dispatched) + Sends(pool.clients, start, mails[..k])
    {
      pool.SendMail(mails[k].0, mails[k].1);
      assert mails[..k + 1][..k] == mails[..k];
    }
    assert mails[..|mails|] == mails;
  }

  /** The i-th of successive sends goes to client (start + i) mod the number of clients, with mail i. */
  lemma {:induction false} SendsAt(clients: seq<MailClient>, start: nat, mails: seq<(string, string)>, i: nat)
    requires |clients| > 0 && i < |mails|
    ensures Sends(clients, start, mails)[i].client == (start + i) % |clients|
    ensures Sends(clients, start, mails)[i].msg == MakeMessage(clients[(start + i) % |clients|], mails[i].0, mails[i].1)
    decreases |mails|
  {
    if i < |mails| - 1 {
      var front := mails[..|mails| - 1];
      SendsAt(clients, start, front, i);
      assert front[i] == mails[i];
    }
  }

  /** Each send uses the client after the previous one, wrapping from the last to the first. */
  lemma RoundRobinStep(k: nat, n: nat)
    requires n > 0
    ensures (k + 1) % n == if k % n == n - 1 then 0 else k % n + 1
  {
    var r := k % n;
    var e := if r == n - 1 then 0 else r + 1;
    var q := if r == n - 1 then k / n + 1 else k / n;
    assert k == n * (k / n) + r;
    assert k + 1 == n * q + e by {
      if r == n - 1 {
        assert n * (k / n + 1) == n * (k / n) + n;
      }
    }
    ModUnique(k + 1, n, q, e);
  }

  /** Of two successive sends, the second goes to the next client, after the last to the first. */
  lemma SendsRoundRobin(clients: seq<MailClient>, start: nat, mails: seq<(string, string)>, i: nat)
    requires |clients| > 0 && i + 1 < |mails|
    ensures var d := Sends(clients, start, mails);
      d[i + 1].client == if d[i].client == |clients| - 1 then 0 else d[i].client + 1
  {
    SendsAt(clients, start, mails, i);
    SendsAt(clients, start, mails, i + 1);
    RoundRobinStep(start + i, |clients|);
  }

  /** The remainder is the only value below n that differs from the dividend by a multiple of n. */
  lemma ModUnique(m: int, n: int, q: int, e: int)
    requires n > 0 && 0 <= e < n && m == n * q + e
    ensures m % n == e
  {
    var d := q - m / n;
    assert n * q - n * (m / n) == n * d;
    assert n * d == m % n - e;
    if d >= 1 {
      MulAtLeast(n, d);
    } else if d <= -1 {
      MulAtLeast(n, -d);
    }
  }

  lemma {:induction false} MulAtLeast(n: nat, d: nat)
    requires d >= 1
    ensures n * d >= n
    decreases d
  {
    if d > 1 {
      MulAtLeast(n, d - 1);
      assert n * d == n * (d - 1) + n;
    }
  }

  /** From a fresh pool, as many sends as there are clients use every client
      exactly once, in order. */
  lemma FromZeroEachClientOnce(clients: seq<MailClient>, mails: seq<(string, string)>)
    requires |clients| > 0 && |mails| == |clients|
    ensures forall i :: 0 <= i < |mails| ==> Sends(clients, 0, mails)[i].client == i
  {
    forall i | 0 <= i < |mails|
      ensures Sends(clients, 0, mails)[i].client == i
    {
      SendsAt(clients, 0, mails, i);
      ModUnique(i, |clients|, 0, i);
    }
  }
}
