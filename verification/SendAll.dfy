/** The loop that sends a whole buffer over a socket that may accept it piece by piece. */
module SendAll {

  /** What one call of `send` may report: some characters accepted, an interruption, an error, or nothing. */
  datatype Report = Accepted(count: nat) | Interrupted | Failed | Nothing

  /** A connected socket: the characters sent so far, and the reports its next calls will give. */
  class Socket {
    var wire: string
    var reports: seq<Report>

    constructor (script: seq<Report>)
      ensures wire == "" && reports == script
    {
      wire, reports := "", script;
    }

    /** `send`: it takes what its report says, at most the whole piece; with no report left the call fails. */
    method Send(piece: string) returns (n: int, interrupted: bool)
      requires piece != ""
      modifies this
      ensures n <= |piece| && wire == old(wire) + (if n > 0 then piece[..n] else "")
      ensures interrupted <==> old(reports) != [] && old(reports)[0].Interrupted?
      ensures old(reports) == [] ==> n < 0 && reports == []
      ensures old(reports) != [] ==> reports == old(reports)[1..] && n == Returned(old(reports)[0], |piece|)
    {
      if reports == [] { return -1, false; }
      var report := reports[0];
      reports := reports[1..];
      match report {
        case Accepted(count) =>
          n, interrupted := if count > |piece| then |piece| else count, false;
          wire := wire + piece[..n];
        case Interrupted => return -1, true;
        case Failed => return -1, false;
        case Nothing => return 0, false;
      }
    }
  }

  function Returned(report: Report, room: nat): int {
    match report
    case Accepted(count) => if count > room then room else count
    case Interrupted => -1
    case Failed => -1
    case Nothing => 0
  }

  // ---- what a series of reports amounts to ---------------------------------------------------

  /** A report after which `send_all` gives up. */
  predicate Stops(report: Report) {
    report.Failed? || report.Nothing? || report == Accepted(0)
  }

  predicate NoneStops(reports: seq<Report>) {
    forall i :: 0 <= i < |reports| ==> !Stops(reports[i])
  }

  /** How many characters the reports offer to take. */
  function Offered(reports: seq<Report>): nat {
    if reports == [] then 0
    else Offered(reports[..|reports| - 1]) + if reports[|reports| - 1].Accepted? then reports[|reports| - 1].count else 0
  }

  /** How many of the reports accept something. */
  function Acceptances(reports: seq<Report>): nat {
    if reports == [] then 0
    else Acceptances(reports[..|reports| - 1]) + if reports[|reports| - 1].Accepted? && reports[|reports| - 1].count > 0 then 1 else 0
  }

  lemma {:induction false} EachAcceptanceOffers(reports: seq<Report>)
    ensures Acceptances(reports) <= Offered(reports)
  {
    if reports != [] {
      EachAcceptanceOffers(reports[..|reports| - 1]);
    }
  }

  lemma {:induction false} OffersGrow(reports: seq<Report>, k: nat)
    requires k <= |reports|
    ensures Offered(reports[..k]) <= Offered(reports)
    decreases |reports| - k
  {
    if k == |reports| {
      assert reports[..k] == reports;
    } else {
      OffersGrow(reports, k + 1);
      assert reports[..k + 1][..k] == reports[..k];
    }
  }

  lemma OneMoreReport(all: seq<Report>, used: nat)
    requires used < |all|
    ensures Offered(all[..used + 1]) == Offered(all[..used]) + if all[used].Accepted? then all[used].count else 0
    ensures NoneStops(all[..used + 1]) <==> NoneStops(all[..used]) && !Stops(all[used])
    ensures all[..used + 1][used] == all[used] && all[..used + 1][..used] == all[..used]
  {
    assert all[..used + 1][..used] == all[..used];
    assert forall i :: 0 <= i < used ==> all[..used + 1][i] == all[..used][i];
  }

  lemma NothingReported(all: seq<Report>)
    ensures Offered(all[..0]) == 0 && NoneStops(all[..0])
  {
  }

  /** How `send_all` ends after these reports: everything is out and none of them was a stop; or the last of
      them is the first stop; or there are no more. */
  ghost predicate Ends(used: seq<Report>, left: seq<Report>, r: int, size: nat) {
    if r == size then NoneStops(used)
    else if used != [] && Stops(used[|used| - 1]) then NoneStops(used[..|used| - 1]) && (r < 0 <==> used[|used| - 1].Failed?)
    else NoneStops(used) && left == [] && r < 0
  }

  /** Whoever offers enough before the first stop gets everything. */
  lemma EnoughIsAll(all: seq<Report>, used: nat, r: int, size: nat)
    requires used <= |all| && Ends(all[..used], all[used..], r, size)
    requires r == size <==> size <= Offered(all[..used])
    ensures forall k :: 0 <= k <= |all| && NoneStops(all[..k]) && size <= Offered(all[..k]) ==> r == size
  {
    forall k | 0 <= k <= |all| && NoneStops(all[..k]) && size <= Offered(all[..k]) ensures r == size {
      if k <= used {
        assert all[..used][..k] == all[..k];
        OffersGrow(all[..used], k);
      } else {
        assert all[..k][used] == all[used];
        assert forall i :: 0 <= i < used ==> all[..used][i] == all[..k][i];
      }
    }
  }

  // ---- send_all ------------------------------------------------------------------------------

  /** `send_all`: what goes out is what the socket took, in order. It reports the full length exactly when
      every character went out, and gives up only at an error, at a call that took nothing, or when the socket
      has no more to report: whoever offers enough before that gets everything. */
  method SendEverything(socket: Socket, data: string) returns (r: int, ghost out: nat)
    modifies socket
    ensures out <= |data| && socket.wire == old(socket.wire) + data[..out]
    ensures r == |data| <==> out == |data|
    ensures r != |data| ==> r <= 0
    ensures |socket.reports| <= |old(socket.reports)|
    ensures
      var all, used := old(socket.reports), |old(socket.reports)| - |socket.reports|;
      && socket.reports == all[used..] && Ends(all[..used], all[used..], r, |data|)
      && out == if Offered(all[..used]) < |data| then Offered(all[..used]) else |data|
    ensures forall k :: 0 <= k <= |old(socket.reports)| && NoneStops(old(socket.reports)[..k]) && |data| <= Offered(old(socket.reports)[..k])
              ==> r == |data| && socket.wire == old(socket.wire) + data
  {
    hide Offered;
    var sent := 0;
    NothingReported(socket.reports);
    ghost var all, used := socket.reports, 0;
    while sent < |data|
      invariant 0 <= sent <= |data| && used <= |all| && socket.reports == all[used..]
      invariant socket.wire == old(socket.wire) + data[..sent]
      invariant NoneStops(all[..used])
      invariant sent == if Offered(all[..used]) < |data| then Offered(all[..used]) else |data|
      decreases |socket.reports|
    {
      ghost var last := used;
      var n, interrupted := socket.Send(data[sent..]);
      if last < |all| {
        OneMoreReport(all, last);
        used := last + 1;
      }
      if n < 0 {
        if interrupted { continue; }
        EnoughIsAll(all, used, n, |data|);
        return n, sent;
      }
      if n == 0 {
        EnoughIsAll(all, used, 0, |data|);
        return 0, sent;
      }
      assert data[..sent] + data[sent..][..n] == data[..sent + n];
      sent := sent + n;
    }
    assert data[..sent] == data;
    EnoughIsAll(all, used, sent, |data|);
    return sent, sent;
  }

  /** The sending side of a session, as the holder of its write mutex sees it. */
  class Session {
    const socket: Socket
    var connected: bool

    constructor (s: Socket)
      ensures socket == s && connected
    {
      socket, connected := s, true;
    }

    /** `send_line` between taking and releasing the mutex: nothing is sent once `connected` is false; before
        that the whole line goes out, unless the socket stops taking characters first. */
    method SendLine(message: string) returns (ghost out: nat)
      modifies socket
      ensures out <= |message| + 1 && socket.wire == old(socket.wire) + (message + "\n")[..out]
      ensures !connected ==> out == 0 && socket.reports == old(socket.reports)
      ensures connected && out <= |message| ==> Offered(old(socket.reports)) <= |message| || !NoneStops(old(socket.reports))
      ensures connected ==>
                forall k :: 0 <= k <= |old(socket.reports)| && NoneStops(old(socket.reports)[..k])
                            && |message| < Offered(old(socket.reports)[..k])
                  ==> socket.wire == old(socket.wire) + (message + "\n")
    {
      if !connected { return 0; }
      var line := message + "\n";
      ghost var all := socket.reports;
      var r, sent := SendEverything(socket, line);
      out := sent;
      assert all[..|all|] == all;
    }

    /** What the owner does under the same mutex before it closes the descriptor. */
    method Retire()
      modifies this
      ensures !connected
    {
      connected := false;
    }
  }
}
