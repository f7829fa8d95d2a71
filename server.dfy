/**
 * The CLI server and the poll loop of main: one listening socket, at most
 * one client, and the presence eventfd.  Every system call is replaced by
 * the integer result it hands back to the loop.
 */
module Server {
  import opened TaiTypes
  import opened Registry
  import Shell

  /** The revents value poll reports for readable data (POLLIN on Linux). */
  const PollIn: int := 1

  /** What socket, setsockopt, bind and listen amount to in start(). */
  datatype Setup =
    | Listening(fd: nat)  // all four calls succeeded; fd is the listening socket
    | SetupFailed         // one of them failed

  /** What ::accept amounts to when no client is held. */
  datatype AcceptResult =
    | Accepted(fd: nat)   // a new connection
    | WouldBlock          // EWOULDBLOCK or EINTR
    | AcceptFailed        // any other error

  /** tai_cli_server: the listening socket and the client socket. */
  class CliServer {
    var listenFd: int
    var clientFd: int

    /** No socket is open before start(). */
    constructor ()
      ensures listenFd == -1 && clientFd == -1
    {
      listenFd := -1;
      clientFd := -1;
    }

    /** start(): the listening fd, or -1 with no listening socket. */
    method Start(setup: Setup) returns (fd: int)
      modifies this`listenFd
      ensures fd == listenFd
      ensures setup.Listening? ==> fd == setup.fd
      ensures setup.SetupFailed? ==> fd == -1
    {
      match setup {
        case Listening(s) => listenFd := s;
        case SetupFailed => listenFd := -1;
      }
      fd := listenFd;
    }

    /** restart(): close the listening socket and start again. */
    method Restart(setup: Setup) returns (fd: int)
      modifies this`listenFd
      ensures fd == listenFd
      ensures setup.Listening? ==> fd == setup.fd
      ensures setup.SetupFailed? ==> fd == -1
    {
      listenFd := -1;
      fd := Start(setup);
    }

    /**
     * accept(): while a client is held its fd is returned and no connection
     * is taken; otherwise the result of ::accept is stored, and an error
     * gives 0 (try again) or -1.
     */
    method Accept(result: AcceptResult) returns (fd: int)
      modifies this`clientFd
      ensures old(clientFd) > 0 ==> fd == old(clientFd) && clientFd == old(clientFd)
      ensures old(clientFd) <= 0 ==>
        match result
        case Accepted(c) => clientFd == c && fd == c
        case WouldBlock => clientFd == -1 && fd == 0
        case AcceptFailed => clientFd == -1 && fd == -1
    {
      if clientFd > 0 {
        return clientFd;
      }
      match result
      case Accepted(c) =>
        clientFd := c;
        fd := c;
      case WouldBlock =>
        clientFd := -1;
        fd := 0;
      case AcceptFailed =>
        clientFd := -1;
        fd := -1;
    }

    /** disconnect(): close the client socket and forget it. */
    method Disconnect()
      modifies this`clientFd
      ensures clientFd == -1
    {
      clientFd := -1;
    }
  }

  /** What poll reports in one round. */
  datatype Revents = Revents(event: int, listen: int, client: int)

  datatype PollResult =
    | Polled(revents: Revents)  // poll returned a count of ready descriptors
    | Interrupted               // EAGAIN or EINTR
    | PollFailed                // any other error

  /** How one round of the loop ends. */
  datatype Outcome =
    | Continue         // back to poll
    | Exit(code: int)  // main returns code
    | Terminated       // an uncaught exception ends the process

  /** The OS results that drive one round of the loop. */
  datatype Round = Round(poll: PollResult, accept: AcceptResult, restart: Setup, recv: int)

  /**
   * The descriptor slots of main: fds[0] is the presence eventfd, fds[1] the
   * listening socket, fds[2] the client, polled only while nfds is 3.
   */
  class EventLoop {
    const server: CliServer
    const shell: Shell.TaiShell
    const eventFd: int
    /** The fd member of the pollfd array. */
    const fds: array<int>
    /** The revents member of the pollfd array; poll writes only the first nfds entries. */
    const revents: array<int>
    var nfds: nat

    /**
     * Listening only (nfds == 2) or one client (nfds == 3), and the slots
     * hold the server's sockets.
     */
    ghost predicate Valid()
      reads this, server, fds
    {
      && fds.Length == 3 && revents.Length == 3 && fds != revents
      && fds[0] == eventFd
      && fds[1] == server.listenFd
      && (nfds == 2 || nfds == 3)
      && (nfds == 3 <==> server.clientFd > 0)
      && (nfds == 3 ==> fds[2] == server.clientFd)
    }

    /** The set-up of main before the loop: the eventfd slot, start(), two slots. */
    constructor (shell: Shell.TaiShell, eventFd: int, setup: Setup)
      ensures Valid()
      ensures this.shell == shell && this.eventFd == eventFd
      ensures fresh(server) && fresh(fds) && fresh(revents)
      ensures nfds == 2 && server.clientFd == -1
      ensures setup.Listening? ==> server.listenFd == setup.fd
      ensures setup.SetupFailed? ==> server.listenFd == -1
    {
      this.shell := shell;
      this.eventFd := eventFd;
      var s := new CliServer();
      server := s;
      fds := new int[3];
      revents := new int[3](_ => 0);
      nfds := 2;
      new;
      fds[0] := eventFd;
      var listen := s.Start(setup);
      fds[1] := listen;
    }

    /** poll: write the revents of the polled slots; the client entry keeps its old value unless polled. */
    method Poll(r: Revents)
      requires Valid()
      modifies revents
      ensures revents[0] == r.event && revents[1] == r.listen
      ensures revents[2] == if nfds == 3 then r.client else old(revents[2])
    {
      revents[0] := r.event;
      revents[1] := r.listen;
      if nfds == 3 {
        revents[2] := r.client;
      }
    }

    /**
     * The listening slot: readable means accept, and an accept error or
     * any other event means drop the client and restart the server; a
     * restart that gives no listening fd ends main with -1.
     */
    method ListenSlot(accept: AcceptResult, restart: Setup) returns (out: Outcome)
      requires Valid()
      modifies server, this`nfds, fds
      ensures out == Continue || out == Exit(-1)
      ensures out == Continue ==> Valid()
      ensures revents[1] == 0 ==>
        out == Continue && nfds == old(nfds) &&
        server.clientFd == old(server.clientFd) && server.listenFd == old(server.listenFd)
      ensures revents[1] == PollIn && old(server.clientFd) > 0 ==>
        out == Continue && nfds == 3 && server.clientFd == old(server.clientFd) &&
        server.listenFd == old(server.listenFd)
      ensures revents[1] == PollIn && old(server.clientFd) <= 0 && accept.Accepted? && accept.fd > 0 ==>
        out == Continue && nfds == 3 && server.clientFd == accept.fd && server.listenFd == old(server.listenFd)
      ensures revents[1] == PollIn && old(server.clientFd) <= 0 && (accept.WouldBlock? || accept == Accepted(0)) ==>
        out == Continue && nfds == old(nfds) && server.clientFd <= 0 && server.listenFd == old(server.listenFd)
      ensures revents[1] == PollIn && old(server.clientFd) <= 0 && accept.AcceptFailed? ==>
        server.clientFd == -1
      ensures revents[1] != 0 && revents[1] != PollIn ==>
        server.clientFd == if old(nfds) == 3 then -1 else old(server.clientFd)
      ensures (revents[1] == PollIn && old(server.clientFd) <= 0 && accept.AcceptFailed?) ||
              (revents[1] != 0 && revents[1] != PollIn) ==>
        && nfds == 2
        && (out == Continue <==> restart.Listening? && restart.fd > 0)
        && (out == Continue ==> server.listenFd == restart.fd)
    {
      out := Continue;
      if revents[1] == PollIn {
        var tmp := server.Accept(accept);
        if tmp > 0 {
          fds[2] := tmp;
          nfds := 3;
        } else if tmp != 0 {
          // accept only fails when no client is held, so main's
          // `if (nfds == 3) { disconnect(); nfds = 2; }` here never fires
          assert nfds == 2;
          out := RestartServer(restart);
        }
      } else if revents[1] != 0 {
        if nfds == 3 {
          server.Disconnect();
          nfds := 2;
        }
        out := RestartServer(restart);
      }
    }

    /** restart() and, when it gives a listening fd, store it in the listening slot. */
    method RestartServer(restart: Setup) returns (out: Outcome)
      requires fds.Length == 3
      modifies server`listenFd, fds
      ensures out == Continue || out == Exit(-1)
      ensures out == Continue <==> restart.Listening? && restart.fd > 0
      ensures out == Continue ==> server.listenFd == restart.fd && fds[1] == restart.fd
      ensures fds[0] == old(fds[0]) && fds[2] == old(fds[2])
    {
      var tmp := server.Restart(restart);
      if tmp > 0 {
        fds[1] := tmp;
        out := Continue;
      } else {
        out := Exit(-1);
      }
    }

    /**
     * The client slot: readable means recv (cmd_parse), and -10 ends the
     * session; any other event drops the client.  Only a client that is
     * polled (nfds == 3) is looked at.
     */
    method ClientSlot(recv: int)
      requires Valid()
      modifies server`clientFd, this`nfds
      ensures Valid()
      ensures old(nfds) == 3 && revents[2] == PollIn && recv != EndSession ==>
        nfds == 3 && server.clientFd == old(server.clientFd)
      ensures nfds == 2 ==> server.clientFd <= 0
      ensures old(nfds) == 3 && (revents[2] == PollIn ==> recv == EndSession) && revents[2] != 0 ==>
        nfds == 2 && server.clientFd == -1
      ensures (old(nfds) == 2 || revents[2] == 0) ==>
        nfds == old(nfds) && server.clientFd == old(server.clientFd)
    {
      if revents[2] == PollIn && nfds == 3 {
        if recv == EndSession {
          server.Disconnect();
          nfds := 2;
        }
      } else if revents[2] != 0 && nfds == 3 {
        server.Disconnect();
        nfds := 2;
      }
    }

    /**
     * One round of the loop: poll, drain the presence queue when the
     * eventfd is readable, then the listening slot, then the client slot.
     */
    method Step(round: Round) returns (out: Outcome)
      requires Valid() && shell.Valid()
      modifies server, this`nfds, fds, revents, shell
      ensures out == Continue ==> Valid() && shell.Valid()
      ensures round.poll.Interrupted? ==> out == Continue && unchanged(this, server, fds, revents, shell)
      ensures round.poll.PollFailed? ==> out == Exit(-1)
      ensures round.poll.Polled? && round.poll.revents.event != PollIn ==> unchanged(shell)
      ensures out == Exit(1) <==>
        && round.poll.Polled? && round.poll.revents.event == PollIn
        && DrainOutcome(shell.env.tai, old(shell.queue), old(shell.creations)).CreateFailed?
      ensures round.poll.Polled? && round.poll.revents.event == PollIn &&
              DrainOutcome(shell.env.tai, old(shell.queue), old(shell.creations)) == ConstructorThrew ==>
        out == Terminated
      ensures round.poll.Polled? && round.poll.revents.event == PollIn && out == Continue ==>
        && shell.queue == []
        && shell.location2moduleId ==
             RegistryAfter(shell.env.tai, old(shell.queue), old(shell.location2moduleId), old(shell.creations))
    {
      match round.poll
      case Interrupted =>
        return Continue;
      case PollFailed =>
        return Exit(-1);
      case Polled(r) =>
        Poll(r);
        if revents[0] == PollIn {
          var st := shell.Drain();
          match st
          case CreateFailed(_) =>
            return Exit(1);
          case ConstructorThrew =>
            return Terminated;
          case Drained =>
        }
        out := ListenSlot(round.accept, round.restart);
        if out != Continue {
          return;
        }
        ClientSlot(round.recv);
    }

    /** A finite stretch of the loop: rounds until one of them ends main. */
    method RunRounds(rounds: seq<Round>) returns (out: Outcome, done: nat)
      requires Valid() && shell.Valid()
      modifies server, this`nfds, fds, revents, shell
      ensures done <= |rounds|
      ensures out == Continue ==> done == |rounds| && Valid() && shell.Valid()
      ensures out != Continue ==> done < |rounds|
    {
      out, done := Continue, 0;
      while done < |rounds|
        invariant done <= |rounds|
        invariant Valid() && shell.Valid()
      {
        var o := Step(rounds[done]);
        if o != Continue {
          return o, done;
        }
        done := done + 1;
      }
    }
  }
}
