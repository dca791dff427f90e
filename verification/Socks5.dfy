/**
 * src/server/socks5nio.c and src/shared/stm.c in place: `Socks5` is struct socks5 with its buffers and
 * parsers, and each of its methods is proved to take its view where the function of the same part of
 * `Connections` takes the old view.
 */
module Socks5s {
  import opened Common
  import opened Buffers
  import opened Selectors
  import opened Connections
  import opened ConnectionLaws
  import opened ConnectionEvents
  import ConnectionSteps
  import Hello
  import P = Protocol
  import ProtocolSteps
  import Auth
  import Requests

  /** Which member of the union `client` was written last. */
  datatype Tag = NoTag | HelloTag | AuthTag | RequestTag

  /** The memory of one struct socks5, which the pool hands out again. */
  class Block {
    var next: Block?
    const rawA: array<byte>
    const rawB: array<byte>
    const hello: Hello.HelloParser
    const auth: Auth.AuthParser
    const request: Requests.RequestParser
    const classes: array<bv32>

    /** The arrays of the struct are its own and have the sizes of their declarations. */
    ghost predicate Shape() {
      Apart(rawA, rawB, auth, request)
    }

    ghost function Memory(): set<object>
      reads hello
    {
      {this, rawA, rawB, hello, hello.parser, auth, auth.username, auth.password, request, request.addr, request.domain}
    }

    /** malloc */
    constructor (classes: array<bv32>)
      ensures Shape() && fresh(Memory())
    {
      rawA := new byte[BUFFER_SIZE];
      rawB := new byte[BUFFER_SIZE];
      hello := new Hello.HelloParser(classes);
      auth := new Auth.AuthParser();
      request := new Requests.RequestParser();
      this.classes := classes;
    }
  }

  ghost predicate Apart(a: array<byte>, b: array<byte>, auth: Auth.AuthParser, request: Requests.RequestParser) {
    && a.Length == BUFFER_SIZE && b.Length == BUFFER_SIZE
    && auth.username.Length == 256 && auth.password.Length == 256
    && request.addr.Length == 16 && request.domain.Length == 256
    && auth.username != auth.password && request.addr != request.domain
    && auth.username !in {request.addr, request.domain} && auth.password !in {request.addr, request.domain}
    && a != b && {a, b} !! {auth.username, auth.password, request.addr, request.domain}
  }

  method MarshallBind(b: Buffer, k: Kernel) returns (ok: bool)
    requires b.Valid()
    modifies b, b.data
    ensures b.Valid() && b.View() == old(b.View()).Put(OriginBind(k, Requests.SUCCEEDED))
    ensures ok <==> |OriginBind(k, Requests.SUCCEEDED)| <= old(b.View()).space
  {
    match k.bound {
      case NoName => ok := Requests.Marshall(b, Requests.SUCCEEDED);
      case Bound4(addr, p) => ok := Requests.MarshallIpv4(b, Requests.SUCCEEDED, addr, p);
      case Bound6(addr, p) => ok := Requests.MarshallIpv6(b, Requests.SUCCEEDED, addr, p);
    }
  }

  class Socks5 {
    var current: Option<State>
    var clientFd: int
    var originFd: int
    var clientReg: Option<Interest>
    var originReg: Option<Interest>
    var references: nat

    const block: Block
    const readBuffer: Buffer
    const writeBuffer: Buffer

    var tag: Tag
    const hello: Hello.HelloParser
    const auth: Auth.AuthParser
    const request: Requests.RequestParser
    var authorized: bool
    var reply: byte

    var resolutionFailed: bool
    var resolution: seq<AddrInfo>
    var remaining: seq<AddrInfo>
    var resolver: Resolver

    var username: seq<byte>
    var destination: Destination
    var port: Requests.port16
    var logged: bool

    ghost var retired: nat
    ghost var job: bool
    ghost var hist: History

    /** The struct lies in this block. */
    ghost predicate Uses(block: Block) {
      && this.block == block && readBuffer.data == block.rawA && writeBuffer.data == block.rawB
      && hello == block.hello && auth == block.auth && request == block.request
    }

    ghost predicate Shape() {
      Apart(readBuffer.data, writeBuffer.data, auth, request) && readBuffer != writeBuffer
    }

    ghost function Repr(): set<object>
      reads hello
    {
      {this, readBuffer, readBuffer.data, writeBuffer, writeBuffer.data, hello, hello.parser,
       auth, auth.username, auth.password, request, request.addr, request.domain}
    }

    ghost predicate Valid()
      reads hello, Repr()
    {
      && Shape() && readBuffer.Valid() && writeBuffer.Valid()
      && (tag.HelloTag? ==> hello.Valid())
      && (tag.AuthTag? ==> auth.Valid())
      && (tag.RequestTag? ==> request.Valid())
    }

    ghost function Member(): (m: Client)
      requires Valid()
      reads hello, Repr()
    {
      match tag
      case NoTag => NoMember
      case HelloTag => HelloSt(hello.View())
      case AuthTag => AuthSt(auth.View(), authorized)
      case RequestTag => RequestSt(request.View(), reply)
    }

    ghost function View(): (v: Conn)
      requires Valid()
      reads hello, Repr()
      ensures v.current == current && v.clientFd == clientFd && v.originFd == originFd
      ensures v.username == username && v.references == references && v.clientReg == clientReg && v.originReg == originReg
      ensures v.resolutionFailed == resolutionFailed && v.resolution == resolution && v.remaining == remaining
      ensures v.rb == readBuffer.View() && v.wb == writeBuffer.View()
      ensures v.client.HelloSt? <==> tag.HelloTag?
      ensures tag.HelloTag? ==> v.client == HelloSt(hello.View())
      ensures v.client.AuthSt? <==> tag.AuthTag?
      ensures tag.AuthTag? ==> v.client == AuthSt(auth.View(), authorized)
      ensures v.client.RequestSt? <==> tag.RequestTag?
      ensures tag.RequestTag? ==> v.client == RequestSt(request.View(), reply)
    {
      Conn(current, clientFd, originFd, clientReg, originReg, references, retired,
           readBuffer.View(), writeBuffer.View(), Member(), resolutionFailed, resolution, remaining,
           resolver, job, username, destination, port, logged, hist)
    }

    // ---------------------------------------------------------------- the object

    /** socks5_new, from memset on, in a block of memory */
    constructor (block: Block, fd: int)
      requires block.Shape()
      ensures Uses(block) && fresh(readBuffer) && fresh(writeBuffer)
      ensures Valid() && View() == Opened(fd).(clientReg := None)
    {
      hide Buffer.Valid, Buffer.View, Hello.HelloParser.Valid, Auth.AuthParser.Valid, Requests.RequestParser.Valid,
           Hello.HelloParser.View, Auth.AuthParser.View, Requests.RequestParser.View;
      this.block := block;
      current := None;
      clientFd, originFd := fd, -1;
      clientReg, originReg := None, None;
      references, retired := 1, 0;
      readBuffer := new Buffer(block.rawA);
      writeBuffer := new Buffer(block.rawB);
      tag, authorized, reply := NoTag, false, 0;
      hello, auth, request := block.hello, block.auth, block.request;
      resolutionFailed, resolution, remaining := false, [], [];
      resolver, job := Idle, false;
      username, destination, port, logged := [45], Blank, 0, false;
      hist := BLANK_HISTORY;
    }

    /** The selector's item for the client's descriptor, if there is one */
    method SetClientReg(x: Option<Interest>)
      requires Valid()
      modifies this`clientReg
      ensures Valid() && Repr() == old(Repr()) && View() == old(View()).(clientReg := x)
    {
      hide Shape, Buffer.Valid, Hello.HelloParser.Valid, Auth.AuthParser.Valid, Requests.RequestParser.Valid;
      hide Buffer.View, Hello.HelloParser.View, Auth.AuthParser.View, Requests.RequestParser.View;
      clientReg := x;
    }

    /** socks5_destroy, apart from the pool */
    method Release()
      requires Valid()
      modifies this`references, this`retired
      ensures Valid() && Repr() == old(Repr()) && View() == Connections.Release(old(View()))
    {
      hide Shape, Buffer.Valid, Hello.HelloParser.Valid, Auth.AuthParser.Valid, Requests.RequestParser.Valid;
      hide Buffer.View, Hello.HelloParser.View, Auth.AuthParser.View, Requests.RequestParser.View;
      if references == 1 {
        retired := retired + 1;
      } else if references != 0 {
        references := references - 1;
      }
    }

    /** The history is not part of the struct. */
    ghost method Note(h: History)
      requires Valid()
      modifies this`hist
      ensures Valid() && Repr() == old(Repr()) && View() == old(View()).(hist := h)
    {
      hide Shape, Buffer.Valid, Hello.HelloParser.Valid, Auth.AuthParser.Valid, Requests.RequestParser.Valid;
      hide Buffer.View, Hello.HelloParser.View, Auth.AuthParser.View, Requests.RequestParser.View;
      hist := h;
    }

    // ---------------------------------------------------------------- sockets and interests

    /** selector_set_interest on the client's descriptor, and the state to go to if that succeeds */
    method SetClientInterest(i: Interest, wanted: State) returns (next: State)
      requires Valid()
      modifies this`clientReg
      ensures Valid() && Repr() == old(Repr())
      ensures Turn(View(), next) == Connections.SetClientInterest(old(View()), i, wanted)
    {
      hide Shape, Buffer.Valid, Hello.HelloParser.Valid, Auth.AuthParser.Valid, Requests.RequestParser.Valid;
      hide Buffer.View, Hello.HelloParser.View, Auth.AuthParser.View, Requests.RequestParser.View;
      if clientReg.Some? {
        clientReg := Some(i);
        next := wanted;
      } else {
        next := Error;
      }
    }

    /** The origin's descriptor, and its item in the selector */
    method SetOrigin(fd: int, reg: Option<Interest>)
      requires Valid()
      modifies this`originFd, this`originReg
      ensures Valid() && Repr() == old(Repr()) && View() == old(View()).(originFd := fd, originReg := reg)
    {
      hide Shape, Buffer.Valid, Hello.HelloParser.Valid, Auth.AuthParser.Valid, Requests.RequestParser.Valid;
      hide Buffer.View, Hello.HelloParser.View, Auth.AuthParser.View, Requests.RequestParser.View;
      originFd, originReg := fd, reg;
    }

    method SetReferences(x: nat)
      requires Valid()
      modifies this`references
      ensures Valid() && Repr() == old(Repr()) && View() == old(View()).(references := x)
    {
      hide Shape, Buffer.Valid, Hello.HelloParser.Valid, Auth.AuthParser.Valid, Requests.RequestParser.Valid;
      hide Buffer.View, Hello.HelloParser.View, Auth.AuthParser.View, Requests.RequestParser.View;
      references := x;
    }

    /** recv into the read buffer */
    method TakeFromClient(bs: seq<byte>)
      requires Valid() && |bs| <= View().rb.space
      modifies this`hist, readBuffer, readBuffer.data
      ensures Valid() && Repr() == old(Repr()) && View() == Connections.TakeFromClient(old(View()), bs)
    {
      assert readBuffer.data !in {writeBuffer.data, auth.username, auth.password, request.addr, request.domain};
      hide Shape, Buffer.Valid, Hello.HelloParser.Valid, Auth.AuthParser.Valid, Requests.RequestParser.Valid;
      hide Buffer.View, Hello.HelloParser.View, Auth.AuthParser.View, Requests.RequestParser.View;
      readBuffer.Receive(bs);
      hist := hist.(fromClient := hist.fromClient + bs);
    }

    method GiveToClient(n: nat)
      requires Valid() && n <= |View().wb.queue|
      modifies this`hist, writeBuffer, writeBuffer.data
      ensures Valid() && Repr() == old(Repr()) && View() == Connections.GiveToClient(old(View()), n)
      ensures writeBuffer.Valid()
    {
      assert writeBuffer.data !in {readBuffer.data, auth.username, auth.password, request.addr, request.domain};
      hide Shape, Hello.HelloParser.Valid, Auth.AuthParser.Valid, Requests.RequestParser.Valid;
      hist := hist.(toClient := hist.toClient + writeBuffer.View().queue[..n]);
      writeBuffer.ReadAdv(n);
    }

    method TakeFromOrigin(bs: seq<byte>)
      requires Valid() && |bs| <= View().wb.space
      modifies this`hist, writeBuffer, writeBuffer.data
      ensures Valid() && Repr() == old(Repr()) && View() == Connections.TakeFromOrigin(old(View()), bs)
    {
      assert writeBuffer.data !in {readBuffer.data, auth.username, auth.password, request.addr, request.domain};
      hide Shape, Buffer.Valid, Hello.HelloParser.Valid, Auth.AuthParser.Valid, Requests.RequestParser.Valid;
      hide Buffer.View, Hello.HelloParser.View, Auth.AuthParser.View, Requests.RequestParser.View;
      writeBuffer.Receive(bs);
      hist := hist.(fromOrigin := hist.fromOrigin + bs);
    }

    // ---------------------------------------------------------------- HELLO

    method HelloParse()
      requires Valid() && tag.HelloTag?
      modifies this`hist, hello, hello.parser, readBuffer, readBuffer.data
      ensures Valid() && Repr() == old(Repr()) && View() == HelloParsed(old(View()))
    {
      ghost var q := readBuffer.View().queue;
      hist := hist.(hello := hist.hello + q[..Hello.Taken(hello.View(), q)]);
      var st, errored := hello.Consume(readBuffer);
    }

    /** The marshaller's answer goes into the write buffer. */
    method HelloProcess() returns (next: State)
      requires Valid() && tag.HelloTag?
      modifies this`hist, writeBuffer, writeBuffer.data
      ensures Valid() && Repr() == old(Repr())
      ensures Turn(View(), next) == Connections.HelloProcess(old(View()))
    {
      assert writeBuffer.data !in {readBuffer.data, auth.username, auth.password, request.addr, request.domain};
      hide Shape, Buffer.Valid, Auth.AuthParser.Valid, Requests.RequestParser.Valid;
      var ok := Hello.Marshall(writeBuffer, hello.selected);
      hist := hist.(method_ := Some(hello.selected));
      next := if ok then HelloWrite else Error;
    }

    /** hello_read with bytes to consume */
    method HelloReceived(bs: seq<byte>) returns (next: State)
      requires Valid() && tag.HelloTag? && |bs| <= View().rb.space
      modifies Repr()
      ensures Valid() && Repr() == old(Repr())
      ensures Turn(View(), next) == Connections.HelloReceived(old(View()), bs)
    {
      hide View, Valid, Member, Shape, Buffer.View, Buffer.Valid, HelloParsed, Connections.HelloProcess,
           Connections.SetClientInterest, Connections.TakeFromClient, Hello.HelloParser.Valid;
      TakeFromClient(bs);
      HelloParse();
      if hello.state.Error? {
        next := Error;
      } else if hello.state.Done? {
        next := SetClientInterest(WRITE, HelloWrite);
        if !next.Error? {
          next := HelloProcess();
        }
      } else {
        next := HelloRead;
      }
    }

    method HelloReadReady(k: Kernel) returns (next: State)
      requires Valid() && tag.HelloTag?
      modifies Repr()
      ensures Valid() && Repr() == old(Repr())
      ensures Turn(View(), next) == Connections.HelloReadReady(old(View()), k)
    {
      var count := readBuffer.WriteRoom();
      hide View, Valid, Member, Shape, Buffer.View, Buffer.Valid, Connections.HelloReceived, Recv;
      match Recv(k, count) {
        case Got(bs) => next := HelloReceived(bs);
        case Closed => next := Error;
        case RetryLater => next := HelloRead;
        case Broken => next := Error;
      }
    }

    method HelloWriteReady(k: Kernel) returns (next: State)
      requires Valid() && tag.HelloTag?
      modifies Repr()
      ensures Valid() && Repr() == old(Repr())
      ensures Turn(View(), next) == Connections.HelloWriteReady(old(View()), k)
    {
      var count := writeBuffer.Pending();
      hide View, Valid, Member, Shape, Buffer.View, Buffer.Valid, Connections.SetClientInterest,
           Connections.GiveToClient, Send, Auth.AuthParser.Valid, Hello.HelloParser.Valid,
           Requests.RequestParser.Valid;
      match Send(k, count) {
        case Accepted(n) =>
          GiveToClient(n);
          var some := writeBuffer.CanRead();
          if some {
            next := HelloWrite;
          } else if hello.selected == Hello.NO_ACCEPTABLE_METHODS {
            next := Done;
          } else {
            next := SetClientInterest(READ, if hello.selected == Hello.USERNAME_PASSWORD then AuthRead else RequestRead);
          }
        case Refused => next := Error;
        case Later => next := HelloWrite;
        case Lost => next := Error;
      }
    }

    // ---------------------------------------------------------------- AUTH

    method AuthParse()
      requires Valid() && tag.AuthTag?
      modifies this`hist, auth, auth.username, auth.password, readBuffer, readBuffer.data
      ensures Valid() && Repr() == old(Repr()) && View() == AuthParsed(old(View()))
    {
      ghost var q := readBuffer.View().queue;
      hist := hist.(auth := hist.auth + q[..Auth.Taken(auth.View(), q)]);
      var st, errored := auth.Consume(readBuffer);
    }

    method Authorize(ok: bool, name: seq<byte>)
      requires Valid() && tag.AuthTag?
      modifies this`authorized, this`username
      ensures Valid() && Repr() == old(Repr())
      ensures View() == old(View()).(client := old(View()).client.(authorized := ok), username := name)
    {
      hide Shape, Buffer.Valid, Hello.HelloParser.Valid, Auth.AuthParser.Valid, Requests.RequestParser.Valid;
      hide Buffer.View, Hello.HelloParser.View, Auth.AuthParser.View, Requests.RequestParser.View;
      authorized, username := ok, name;
    }

    method PutStatus(status: byte, users: map<seq<byte>, seq<byte>>) returns (ok: bool)
      requires Valid() && status <= Auth.FAILURE
      modifies this`hist, writeBuffer, writeBuffer.data
      ensures Valid() && Repr() == old(Repr())
      ensures View() == old(View()).(wb := old(View()).wb.Put(Auth.Answer(status)),
                                     hist := old(View()).hist.(status := Some(status), users := users))
      ensures ok <==> |Auth.Answer(status)| <= old(View()).wb.space
    {
      assert writeBuffer.data !in {readBuffer.data, auth.username, auth.password, request.addr, request.domain};
      hide Shape, Buffer.Valid, Hello.HelloParser.Valid, Auth.AuthParser.Valid, Requests.RequestParser.Valid;
      hide Buffer.View, Hello.HelloParser.View, Auth.AuthParser.View, Requests.RequestParser.View;
      ok := Auth.Marshall(writeBuffer, status);
      hist := hist.(status := Some(status), users := users);
    }

    method AuthProcess(k: Kernel) returns (next: State)
      requires Valid() && tag.AuthTag?
      modifies this`authorized, this`username, this`hist, writeBuffer, writeBuffer.data
      ensures Valid() && Repr() == old(Repr())
      ensures Turn(View(), next) == Connections.AuthProcess(old(View()), k)
    {
      assert auth.View() == View().client.auth;
      var name, password := auth.username[..auth.usernameLen], auth.password[..auth.passwordLen];
      hide View, Valid, Shape, CString, Knows;
      var known := Knows(k.users, name, password);
      Authorize(known, if known then CString(name)[..Min(|CString(name)|, 64)] else username);
      var ok := PutStatus(if known then Auth.SUCCESS else Auth.FAILURE, k.users);
      next := if ok then AuthWrite else Error;
    }

    method AuthReadReady(k: Kernel) returns (next: State)
      requires Valid() && tag.AuthTag?
      modifies Repr()
      ensures Valid() && Repr() == old(Repr())
      ensures Turn(View(), next) == Connections.AuthReadReady(old(View()), k)
    {
      var count := readBuffer.WriteRoom();
      hide View, Valid, Member, Shape, Buffer.View, Buffer.Valid, AuthParsed, Connections.AuthProcess,
           Connections.SetClientInterest, Connections.TakeFromClient, Recv, Auth.AuthParser.Valid,
           Hello.HelloParser.Valid, Requests.RequestParser.Valid;
      match Recv(k, count) {
        case Got(bs) =>
          TakeFromClient(bs);
          AuthParse();
          if auth.state.Error? {
            next := Error;
          } else if auth.state.Done? {
            next := SetClientInterest(WRITE, AuthWrite);
            if !next.Error? {
              next := AuthProcess(k);
            }
          } else {
            next := AuthRead;
          }
        case Closed => next := Error;
        case RetryLater => next := AuthRead;
        case Broken => next := Error;
      }
    }

    method AuthWriteReady(k: Kernel) returns (next: State)
      requires Valid() && tag.AuthTag?
      modifies Repr()
      ensures Valid() && Repr() == old(Repr())
      ensures Turn(View(), next) == Connections.AuthWriteReady(old(View()), k)
    {
      var count := writeBuffer.Pending();
      hide View, Valid, Member, Shape, Buffer.View, Buffer.Valid, Connections.SetClientInterest,
           Connections.GiveToClient, Send, Auth.AuthParser.Valid, Hello.HelloParser.Valid,
           Requests.RequestParser.Valid;
      match Send(k, count) {
        case Accepted(n) =>
          GiveToClient(n);
          var some := writeBuffer.CanRead();
          if some {
            next := AuthWrite;
          } else if !authorized {
            next := Done;
          } else {
            next := SetClientInterest(READ, RequestRead);
          }
        case Refused => next := Error;
        case Later => next := AuthWrite;
        case Lost => next := Error;
      }
    }

    // ---------------------------------------------------------------- REQUEST

    method RequestParse()
      requires Valid() && tag.RequestTag?
      modifies this`hist, request, request.addr, request.domain, readBuffer, readBuffer.data
      ensures Valid() && Repr() == old(Repr()) && View() == RequestParsed(old(View()))
    {
      ghost var q := readBuffer.View().queue;
      hist := hist.(request := hist.request + q[..Requests.Taken(request.View(), q)]);
      var st, errored := request.Consume(readBuffer);
    }

    /** request_log_success, and the same lines of request_set_reply; `code` chooses the status. */
    method Log(code: byte)
      requires Valid()
      modifies this`logged, this`hist
      ensures Valid() && Repr() == old(Repr()) && View() == Logged(old(View()), code)
    {
      hide Shape, Buffer.Valid, Hello.HelloParser.Valid, Auth.AuthParser.Valid, Requests.RequestParser.Valid;
      hide Buffer.View, Hello.HelloParser.View, Auth.AuthParser.View, Requests.RequestParser.View;
      if !logged {
        hist := hist.(log := hist.log + [LogEntry(username, destination, port, LogStatus(code))]);
        logged := true;
      }
    }

    method SetReplyCode(code: byte)
      requires Valid() && tag.RequestTag?
      modifies this`reply
      ensures Valid() && Repr() == old(Repr())
      ensures View() == old(View()).(client := old(View()).client.(reply := code))
    {
      hide Shape, Buffer.Valid, Hello.HelloParser.Valid, Auth.AuthParser.Valid, Requests.RequestParser.Valid;
      hide Buffer.View, Hello.HelloParser.View, Auth.AuthParser.View, Requests.RequestParser.View;
      reply := code;
    }

    /** request_marshall */
    method PutZero(code: byte) returns (ok: bool)
      requires Valid()
      modifies this`hist, writeBuffer, writeBuffer.data
      ensures Valid() && Repr() == old(Repr())
      ensures View() == if code > Requests.ADDRESS_TYPE_NOT_SUPPORTED then old(View())
                        else PutReply(old(View()), code, Requests.ReplyZero(code))
      ensures ok <==> code <= Requests.ADDRESS_TYPE_NOT_SUPPORTED && |Requests.ReplyZero(code)| <= old(View()).wb.space
    {
      assert writeBuffer.data !in {readBuffer.data, auth.username, auth.password, request.addr, request.domain};
      hide Shape, Buffer.Valid, Hello.HelloParser.Valid, Auth.AuthParser.Valid, Requests.RequestParser.Valid;
      hide Buffer.View, Hello.HelloParser.View, Auth.AuthParser.View, Requests.RequestParser.View;
      ok := Requests.Marshall(writeBuffer, code);
      if code <= Requests.ADDRESS_TYPE_NOT_SUPPORTED {
        hist := hist.(code := Some(code), reply := Requests.ReplyZero(code));
      }
    }

    /** request_marshall_origin_bind, which is only called with the code of success */
    method PutBind(k: Kernel) returns (ok: bool)
      requires Valid()
      modifies this`hist, writeBuffer, writeBuffer.data
      ensures Valid() && Repr() == old(Repr())
      ensures View() == PutReply(old(View()), Requests.SUCCEEDED, OriginBind(k, Requests.SUCCEEDED))
      ensures ok <==> |OriginBind(k, Requests.SUCCEEDED)| <= old(View()).wb.space
    {
      assert writeBuffer.data !in {readBuffer.data, auth.username, auth.password, request.addr, request.domain};
      hide Shape, Buffer.Valid, Hello.HelloParser.Valid, Auth.AuthParser.Valid, Requests.RequestParser.Valid;
      hide Buffer.View, Hello.HelloParser.View, Auth.AuthParser.View, Requests.RequestParser.View;
      hide OriginBind, Grows, Fifo.Put;
      ok := MarshallBind(writeBuffer, k);
      hist := hist.(code := Some(Requests.SUCCEEDED), reply := OriginBind(k, Requests.SUCCEEDED));
    }

    /** request_set_reply */
    method SetReply(code: byte) returns (next: State)
      requires Valid() && tag.RequestTag?
      modifies this, writeBuffer, writeBuffer.data
      ensures Valid() && Repr() == old(Repr()) && tag == old(tag)
      ensures Turn(View(), next) == Connections.SetReply(old(View()), code)
    {
      hide View, Valid, Member, Shape, Buffer.View, Buffer.Valid, Requests.RequestParser.Valid, Logged, PutReply,
           Connections.SetClientInterest, Grows, LogStatus;
      SetReplyCode(code);
      if code != Requests.SUCCEEDED {
        Log(code);
      }
      var ok := PutZero(code);
      if ok {
        next := SetClientInterest(WRITE, RequestWrite);
      } else {
        next := Error;
      }
    }

    method SetDestination(x: Destination)
      requires Valid()
      modifies this`destination
      ensures Valid() && Repr() == old(Repr()) && View() == old(View()).(destination := x)
    {
      hide Shape, Buffer.Valid, Hello.HelloParser.Valid, Auth.AuthParser.Valid, Requests.RequestParser.Valid;
      hide Buffer.View, Hello.HelloParser.View, Auth.AuthParser.View, Requests.RequestParser.View;
      destination := x;
    }

    /** A new port, and nothing logged about it yet */
    method SetPort(x: Requests.port16)
      requires Valid()
      modifies this`port, this`logged
      ensures Valid() && Repr() == old(Repr()) && View() == old(View()).(port := x, logged := false)
    {
      hide Shape, Buffer.Valid, Hello.HelloParser.Valid, Auth.AuthParser.Valid, Requests.RequestParser.Valid;
      hide Buffer.View, Hello.HelloParser.View, Auth.AuthParser.View, Requests.RequestParser.View;
      port, logged := x, false;
    }

    /** request_remember_destination */
    method Remember()
      requires Valid() && tag.RequestTag?
      modifies this`destination, this`port, this`logged
      ensures Valid() && Repr() == old(Repr()) && View() == Connections.Remember(old(View()))
    {
      assert request.View().Wf();
      assert request.addr[..][..4] == request.addr[..4];
      assert request.domain[..][..request.domainLen] == request.domain[..request.domainLen];
      hide View, Valid, Member, Shape, Buffer.View, Buffer.Valid, Requests.RequestParser.Valid, CString;
      var d := Dash;
      if request.atyp == Requests.DOMAIN {
        d := Domain(CString(request.domain[..request.domainLen]));
      } else if request.atyp == Requests.IPV4 {
        d := Ip4(request.addr[..4]);
      } else if request.atyp == Requests.IPV6 {
        d := Ip6(request.addr[..]);
      }
      SetPort(request.port);
      SetDestination(d);
    }

    /** The thread runs, with a reference of its own. */
    method StartThread()
      requires Valid()
      modifies this`references, this`resolver
      ensures Valid() && Repr() == old(Repr())
      ensures View() == old(View()).(references := old(View()).references + 1, resolver := Running)
    {
      hide Shape, Buffer.Valid, Hello.HelloParser.Valid, Auth.AuthParser.Valid, Requests.RequestParser.Valid;
      hide Buffer.View, Hello.HelloParser.View, Auth.AuthParser.View, Requests.RequestParser.View;
      references, resolver := references + 1, Running;
    }

    /** request_start_resolution */
    method StartResolution(k: Kernel) returns (next: State)
      requires Valid() && tag.RequestTag?
      modifies this, writeBuffer, writeBuffer.data
      ensures Valid() && Repr() == old(Repr()) && tag == old(tag)
      ensures Turn(View(), next) == Connections.StartResolution(old(View()), k)
    {
      assert request.domain[..][..request.domainLen] == View().client.request.domain[..request.domainLen];
      assert request.port == View().client.request.port;
      hide View, Valid, Member, Shape, Buffer.View, Buffer.Valid, Requests.RequestParser.Valid, Requests.RequestParser.View,
           Connections.SetReply, Connections.SetClientInterest, CString, Decimal, Grows;
      if !k.memory || !k.thread {
        next := SetReply(Requests.GENERAL_FAILURE);
      } else {
        StartThread();
        Note(View().hist.(asked := Some(Lookup(CString(request.domain[..][..request.domainLen]), Decimal(request.port)))));
        next := SetClientInterest(NOOP, Resolving);
      }
    }

    /** The end of request_connect_sockaddr: the descriptor is recorded, and forgotten if the selector refuses it. */
    method RegisterOrigin(fd: nat, interest: Interest) returns (ok: bool)
      requires Valid()
      modifies this`originFd, this`references, this`originReg
      ensures Valid() && Repr() == old(Repr()) && ok == !InvalidFd(fd)
      ensures View() == if ok then old(View()).(originFd := fd, references := old(View()).references + 1,
                                                originReg := Some(interest))
                        else old(View()).(originFd := -1)
    {
      hide View, Valid, Member, Shape, Buffer.View, Buffer.Valid, Requests.RequestParser.Valid;
      SetReferences(references + 1);
      ok := !InvalidFd(fd);
      if ok {
        SetOrigin(fd, Some(interest));
      } else {
        SetReferences(references - 1);
        SetOrigin(-1, originReg);
      }
    }

    /** request_connect_sockaddr */
    method ConnectSockaddr(a: Attempt) returns (ok: bool, inProgress: bool, errno: Errno)
      requires Valid()
      modifies this`originFd, this`references, this`originReg
      ensures Valid() && Repr() == old(Repr())
      ensures AsConnect(View(), ok, inProgress, errno) == Connections.ConnectSockaddr(old(View()), a)
    {
      hide View, Valid, Member, Shape, Buffer.View, Buffer.Valid, Requests.RequestParser.Valid;
      ok, inProgress, errno := false, false, a.errno;
      match a {
        case NoSocket(_) =>
        case NoNonBlocking(_) =>
        case ConnectFails(_) =>
        case InProgress(fd, _) =>
          inProgress := true;
          ok := RegisterOrigin(fd, WRITE);
        case Immediate(fd, _) =>
          ok := RegisterOrigin(fd, NOOP);
      }
    }

    method NextAddress() returns (a: AddrInfo)
      requires Valid() && remaining != []
      modifies this`remaining
      ensures Valid() && Repr() == old(Repr()) && a == old(remaining[0])
      ensures View() == old(View()).(remaining := old(View()).remaining[1..])
    {
      hide Shape, Buffer.Valid, Hello.HelloParser.Valid, Auth.AuthParser.Valid, Requests.RequestParser.Valid;
      hide Buffer.View, Hello.HelloParser.View, Auth.AuthParser.View, Requests.RequestParser.View;
      a := remaining[0];
      remaining := remaining[1..];
    }

    /** request_connect_next_resolution; the kernel answers each connect with the next of `attempts`. */
    method ConnectNext(attempts: seq<Attempt>) returns (ok: bool, inProgress: bool, errno: Errno)
      requires Valid()
      modifies this`originFd, this`references, this`originReg, this`remaining, this`hist
      ensures Valid() && Repr() == old(Repr())
      ensures AsConnect(View(), ok, inProgress, errno) == Connections.ConnectNext(old(View()), attempts, HostUnreach)
    {
      hide View, Valid, Member, Shape, Buffer.View, Buffer.Valid, Requests.RequestParser.Valid,
           Connections.ConnectSockaddr;
      ok, inProgress, errno := false, false, HostUnreach;
      var answers := attempts;
      while remaining != [] && !ok
        invariant Valid() && Repr() == old(Repr())
        invariant ok ==> Connect.Connecting(View(), inProgress) == Connections.ConnectNext(old(View()), attempts, HostUnreach)
        invariant !ok ==>
                    Connections.ConnectNext(View(), answers, errno) == Connections.ConnectNext(old(View()), attempts, HostUnreach)
        decreases if ok then 0 else 1, |remaining|
      {
        var a := NextAddress();
        if IsIp(a) {
          Note(View().hist.(tried := View().hist.tried + [a]));
          ok, inProgress, errno := ConnectSockaddr(NextAttempt(answers));
          answers := OtherAttempts(answers);
        }
      }
    }

    method Reply(k: Kernel, log: bool) returns (next: State)
      requires Valid() && tag.RequestTag?
      modifies this, writeBuffer, writeBuffer.data
      ensures Valid() && Repr() == old(Repr()) && tag == old(tag)
      ensures Turn(View(), next) == Connections.Reply(old(View()), k, log)
    {
      hide View, Valid, Member, Shape, Buffer.View, Buffer.Valid, Requests.RequestParser.Valid, OriginBind, PutReply,
           Logged;
      SetReplyCode(Requests.SUCCEEDED);
      if log {
        Log(Requests.SUCCEEDED);
      } else {
        Note(View().hist.(retriedAtOnce := true));
      }
      var ok := PutBind(k);
      next := if ok then RequestWrite else Error;
    }

    method Succeed(k: Kernel, log: bool) returns (next: State)
      requires Valid() && tag.RequestTag?
      modifies this, writeBuffer, writeBuffer.data
      ensures Valid() && Repr() == old(Repr()) && tag == old(tag)
      ensures Turn(View(), next) == Connections.Succeed(old(View()), k, log)
    {
      hide View, Valid, Member, Shape, Buffer.View, Buffer.Valid, Requests.RequestParser.Valid, Connections.Reply,
           Connections.SetClientInterest;
      next := Reply(k, log);
      if !next.Error? {
        next := SetClientInterest(WRITE, RequestWrite);
      }
    }

    /** request_build_sockaddr */
    method BuildSockaddr() returns (e: Query)
      requires Valid() && tag.RequestTag?
      ensures Valid() && View() == old(View()) && Repr() == old(Repr())
      ensures e == EndpointOf(View().client.request)
    {
      assert request.View().Wf();
      if request.atyp == Requests.IPV4 {
        e := Endpoint(Inet, request.addr[..4], request.port);
        assert request.addr[..][..4] == request.addr[..4];
      } else {
        e := Endpoint(Inet6, request.addr[..], request.port);
      }
    }

    /** request_connect_ip, and what request_process does with its outcome */
    method ConnectIp(k: Kernel) returns (next: State)
      requires Valid() && tag.RequestTag?
      modifies this, writeBuffer, writeBuffer.data
      ensures Valid() && Repr() == old(Repr())
      ensures Turn(View(), next) == Connections.ConnectIp(old(View()), k)
    {
      hide View, Valid, Member, Shape, Buffer.View, Buffer.Valid, Requests.RequestParser.Valid, Connections.SetReply,
           Connections.Succeed, Connections.ConnectSockaddr, Connections.SetClientInterest, NextAttempt, EndpointOf,
           ReplyForErrno, Grows, Moved, FdsOf;
      var address := BuildSockaddr();
      Note(View().hist.(asked := Some(address)));
      var ok, inProgress, errno := ConnectSockaddr(NextAttempt(k.attempts));
      if !ok {
        next := SetReply(ReplyForErrno(errno));
      } else if inProgress {
        next := SetClientInterest(NOOP, State.Connecting);
      } else {
        next := Succeed(k, true);
      }
    }

    /** request_process */
    method RequestProcess(k: Kernel) returns (next: State)
      requires Valid() && tag.RequestTag?
      modifies this, writeBuffer, writeBuffer.data
      ensures Valid() && Repr() == old(Repr())
      ensures Turn(View(), next) == Connections.RequestProcess(old(View()), k)
    {
      hide View, Valid, Member, Shape, Buffer.View, Buffer.Valid, Requests.RequestParser.Valid, Connections.Remember,
           Connections.SetReply, Connections.StartResolution, Connections.ConnectIp;
      Remember();
      if request.cmd != Requests.CONNECT {
        next := SetReply(Requests.COMMAND_NOT_SUPPORTED);
      } else if request.atyp == Requests.DOMAIN {
        next := StartResolution(k);
      } else if request.atyp != Requests.IPV4 && request.atyp != Requests.IPV6 {
        next := SetReply(Requests.ADDRESS_TYPE_NOT_SUPPORTED);
      } else {
        next := ConnectIp(k);
      }
    }

    method RequestReadReady(k: Kernel) returns (next: State)
      requires Valid() && tag.RequestTag?
      modifies Repr()
      ensures Valid() && Repr() == old(Repr())
      ensures Turn(View(), next) == Connections.RequestReadReady(old(View()), k)
    {
      var count := readBuffer.WriteRoom();
      hide View, Valid, Member, Shape, Buffer.View, Buffer.Valid, Requests.RequestParser.Valid, RequestParsed,
           Connections.RequestProcess, Connections.SetReply, Connections.TakeFromClient, Recv;
      match Recv(k, count) {
        case Got(bs) =>
          TakeFromClient(bs);
          RequestParse();
          if request.state.Done? {
            next := RequestProcess(k);
          } else if request.state.Error? {
            next := SetReply(request.reply);
          } else {
            next := RequestRead;
          }
        case Closed => next := Error;
        case RetryLater => next := RequestRead;
        case Broken => next := Error;
      }
    }

    /** What resolving and connecting do with the outcome of the address loop. */
    method AfterConnect(ok: bool, inProgress: bool, errno: Errno, k: Kernel, log: bool) returns (next: State)
      requires Valid() && tag.RequestTag?
      modifies this, writeBuffer, writeBuffer.data
      ensures Valid() && Repr() == old(Repr())
      ensures Turn(View(), next) == Connections.AfterConnect(AsConnect(old(View()), ok, inProgress, errno), k, log)
    {
      hide View, Valid, Member, Shape, Buffer.View, Buffer.Valid, Requests.RequestParser.Valid, Connections.SetReply,
           Connections.Succeed;
      if !ok {
        next := SetReply(ReplyForErrno(errno));
      } else if inProgress {
        next := State.Connecting;
      } else {
        next := Succeed(k, log);
      }
    }

    /** resolving */
    method BlockReady(k: Kernel) returns (next: State)
      requires Valid() && tag.RequestTag?
      modifies this, writeBuffer, writeBuffer.data
      ensures Valid() && Repr() == old(Repr())
      ensures Turn(View(), next) == Connections.BlockReady(old(View()), k)
    {
      hide View, Valid, Member, Shape, Buffer.View, Buffer.Valid, Requests.RequestParser.Valid, Connections.SetReply,
           Connections.AfterConnect, Connections.ConnectNext;
      if resolutionFailed || resolution == [] {
        next := SetReply(Requests.HOST_UNREACHABLE);
      } else {
        var ok, inProgress, errno := ConnectNext(k.attempts);
        next := AfterConnect(ok, inProgress, errno, k, true);
      }
    }

    /** selector_unregister_fd, which calls socks5_destroy, and close */
    method DropOrigin()
      requires Valid()
      modifies this`originFd, this`originReg, this`references, this`retired
      ensures Valid() && Repr() == old(Repr()) && View() == Connections.DropOrigin(old(View()))
    {
      hide View, Valid, Member, Shape, Buffer.View, Buffer.Valid, Requests.RequestParser.Valid, Connections.Release;
      if originReg.Some? {
        SetOrigin(originFd, None);
        Release();
      }
      SetOrigin(-1, originReg);
    }

    method SetOriginInterest(i: Interest) returns (ok: bool)
      requires Valid()
      modifies this`originReg
      ensures Valid() && Repr() == old(Repr()) && ok == old(originReg).Some?
      ensures View() == if ok then old(View()).(originReg := Some(i)) else old(View())
    {
      hide Shape, Buffer.Valid, Hello.HelloParser.Valid, Auth.AuthParser.Valid, Requests.RequestParser.Valid;
      hide Buffer.View, Hello.HelloParser.View, Auth.AuthParser.View, Requests.RequestParser.View;
      ok := originReg.Some?;
      if ok {
        originReg := Some(i);
      }
    }

    method ConnectFailed(error: Errno, k: Kernel) returns (next: State)
      requires Valid() && tag.RequestTag?
      modifies this, writeBuffer, writeBuffer.data
      ensures Valid() && Repr() == old(Repr())
      ensures Turn(View(), next) == Connections.ConnectFailed(old(View()), error, k)
    {
      hide View, Valid, Member, Shape, Buffer.View, Buffer.Valid, Requests.RequestParser.Valid,
           Connections.DropOrigin, Connections.AfterConnect, Connections.ConnectNext;
      DropOrigin();
      var ok, inProgress, errno := false, false, error;
      if remaining != [] {
        ok, inProgress, errno := ConnectNext(k.attempts);
      }
      next := AfterConnect(ok, inProgress, errno, k, false);
    }

    /** connecting */
    method ConnectReady(fd: int, k: Kernel) returns (next: State)
      requires Valid() && tag.RequestTag?
      modifies this, writeBuffer, writeBuffer.data
      ensures Valid() && Repr() == old(Repr())
      ensures Turn(View(), next) == Connections.ConnectReady(old(View()), fd, k)
    {
      hide View, Valid, Member, Shape, Buffer.View, Buffer.Valid, Requests.RequestParser.Valid, Connections.SetReply,
           Connections.ConnectFailed, Connections.Reply, Connections.SetClientInterest;
      if fd != originFd {
        return State.Connecting;
      }
      match k.probe {
        case ProbeFails =>
          var ok := SetOriginInterest(NOOP);
          Note(View().hist.(probeFailed := true));
          next := SetReply(Requests.GENERAL_FAILURE);
        case SocketError(errno) =>
          next := ConnectFailed(errno, k);
        case SocketClear =>
          next := Reply(k, true);
          if !next.Error? {
            var ok := SetOriginInterest(NOOP);
            if ok {
              next := SetClientInterest(WRITE, RequestWrite);
            } else {
              next := Error;
            }
          }
      }
    }

    method RequestWriteReady(k: Kernel) returns (next: State)
      requires Valid() && tag.RequestTag?
      modifies Repr()
      ensures Valid() && Repr() == old(Repr())
      ensures Turn(View(), next) == Connections.RequestWriteReady(old(View()), k)
    {
      var count := writeBuffer.Pending();
      hide View, Valid, Member, Shape, Buffer.View, Buffer.Valid, Requests.RequestParser.Valid,
           Connections.GiveToClient, Send;
      match Send(k, count) {
        case Accepted(n) =>
          GiveToClient(n);
          var some := writeBuffer.CanRead();
          next := if some then RequestWrite else if reply == Requests.SUCCEEDED && originFd != -1 then Copy else Done;
        case Refused => next := Error;
        case Later => next := RequestWrite;
        case Lost => next := Error;
      }
    }

    // ---------------------------------------------------------------- COPY

    /** copy_buffer_can_write on the read buffer, and on the write buffer */
    method ReadBufferCanWrite() returns (can: bool)
      requires Valid()
      modifies readBuffer, readBuffer.data
      ensures Valid() && Repr() == old(Repr()) && readBuffer.Valid()
      ensures View() == old(View()).(rb := MakeRoom(old(View()).rb)) && can == (View().rb.space > 0)
    {
      assert readBuffer.data !in {writeBuffer.data, auth.username, auth.password, request.addr, request.domain};
      hide Shape, Hello.HelloParser.Valid, Auth.AuthParser.Valid, Requests.RequestParser.Valid, MakeRoom;
      can := BufferCanWrite(readBuffer);
    }

    method WriteBufferCanWrite() returns (can: bool)
      requires Valid()
      modifies writeBuffer, writeBuffer.data
      ensures Valid() && Repr() == old(Repr()) && writeBuffer.Valid()
      ensures View() == old(View()).(wb := MakeRoom(old(View()).wb)) && can == (View().wb.space > 0)
    {
      assert writeBuffer.data !in {readBuffer.data, auth.username, auth.password, request.addr, request.domain};
      hide Shape, Hello.HelloParser.Valid, Auth.AuthParser.Valid, Requests.RequestParser.Valid, MakeRoom;
      can := BufferCanWrite(writeBuffer);
    }

    method Watch(client: Interest, origin: Interest) returns (ok: bool)
      requires Valid()
      modifies this`clientReg, this`originReg
      ensures Valid() && Repr() == old(Repr()) && ok == (old(clientReg).Some? && old(originReg).Some?)
      ensures View() == if old(clientReg).None? then old(View())
                        else if old(originReg).None? then old(View()).(clientReg := Some(client))
                        else old(View()).(clientReg := Some(client), originReg := Some(origin))
    {
      hide View, Valid, Member, Shape, Buffer.View, Buffer.Valid, Requests.RequestParser.Valid;
      ok := clientReg.Some?;
      if ok {
        SetClientReg(Some(client));
        ok := SetOriginInterest(origin);
      }
    }

    /** The first half of copy_update_interests: what the two buffers allow, after making room in both. */
    method Allowed() returns (client: Interest, origin: Interest)
      requires Valid()
      modifies readBuffer, readBuffer.data, writeBuffer, writeBuffer.data
      ensures Valid() && Repr() == old(Repr())
      ensures View() == old(View()).(rb := MakeRoom(old(View()).rb), wb := MakeRoom(old(View()).wb))
      ensures client == Interest(View().rb.space > 0, View().wb.queue != [])
      ensures origin == Interest(View().wb.space > 0, View().rb.queue != [])
    {
      hide View, Valid, Member, Shape, Buffer.View, Buffer.Valid, Requests.RequestParser.Valid, MakeRoom;
      RoomKeepsQueue(View().rb);
      RoomKeepsQueue(View().wb);
      var clientRead := ReadBufferCanWrite();
      var originWrite := readBuffer.CanRead();
      var originRead := WriteBufferCanWrite();
      var clientWrite := writeBuffer.CanRead();
      return Interest(clientRead, clientWrite), Interest(originRead, originWrite);
    }

    /** copy_update_interests */
    method UpdateInterests() returns (ok: bool)
      requires Valid()
      modifies this, readBuffer, readBuffer.data, writeBuffer, writeBuffer.data
      ensures Valid() && Repr() == old(Repr()) && tag == old(tag)
      ensures Turn(View(), if ok then Copy else Error) == Connections.UpdateInterests(old(View()))
    {
      hide View, Valid, Member, Shape, Buffer.View, Buffer.Valid, Requests.RequestParser.Valid, MakeRoom;
      ok := false;
      if originFd != -1 {
        var client, origin := Allowed();
        ok := Watch(client, origin);
      }
    }

    method GiveToOrigin(n: nat)
      requires Valid() && n <= |View().rb.queue|
      modifies this`hist, readBuffer, readBuffer.data
      ensures Valid() && Repr() == old(Repr())
      ensures View() == old(View()).(rb := old(View()).rb.Drop(n),
                                     hist := old(View()).hist.(toOrigin := old(View()).hist.toOrigin + old(View()).rb.queue[..n]))
    {
      assert readBuffer.data !in {writeBuffer.data, auth.username, auth.password, request.addr, request.domain};
      hide Shape, Hello.HelloParser.Valid, Auth.AuthParser.Valid, Requests.RequestParser.Valid;
      hist := hist.(toOrigin := hist.toOrigin + readBuffer.View().queue[..n]);
      readBuffer.ReadAdv(n);
    }

    /** copy_try_write towards the client, and towards the origin */
    method WriteClient(k: Kernel) returns (ok: bool)
      requires Valid() && View().wb.queue != []
      modifies this`hist, writeBuffer, writeBuffer.data
      ensures Valid() && Repr() == old(Repr())
      ensures Tried(View(), ok) == Connections.TryWrite(old(View()), clientFd, k)
    {
      var count := writeBuffer.Pending();
      hide View, Valid, Member, Shape, Buffer.View, Buffer.Valid, Requests.RequestParser.Valid,
           Connections.GiveToClient, Send;
      match Send(k, count) {
        case Accepted(n) =>
          GiveToClient(n);
          ok := true;
        case Refused => ok := false;
        case Later => ok := true;
        case Lost => ok := false;
      }
    }

    method WriteOrigin(k: Kernel) returns (ok: bool)
      requires Valid() && View().rb.queue != [] && originFd != clientFd
      modifies this`hist, readBuffer, readBuffer.data
      ensures Valid() && Repr() == old(Repr())
      ensures Tried(View(), ok) == Connections.TryWrite(old(View()), originFd, k)
    {
      var count := readBuffer.Pending();
      hide View, Valid, Member, Shape, Buffer.View, Buffer.Valid, Requests.RequestParser.Valid, Send;
      match Send(k, count) {
        case Accepted(n) =>
          GiveToOrigin(n);
          ok := true;
        case Refused => ok := false;
        case Later => ok := true;
        case Lost => ok := false;
      }
    }

    method TryWrite(fd: int, k: Kernel) returns (ok: bool)
      requires Valid()
      modifies this`hist, readBuffer, readBuffer.data, writeBuffer, writeBuffer.data
      ensures Valid() && Repr() == old(Repr())
      ensures Tried(View(), ok) == Connections.TryWrite(old(View()), fd, k)
    {
      var toClient := writeBuffer.CanRead();
      var toOrigin := readBuffer.CanRead();
      hide View, Valid, Member, Shape, Buffer.View, Buffer.Valid, Requests.RequestParser.Valid, Send;
      if fd == clientFd {
        ok := true;
        if toClient {
          ok := WriteClient(k);
        }
      } else if fd == originFd {
        ok := true;
        if toOrigin {
          ok := WriteOrigin(k);
        }
      } else {
        ok := false;
      }
    }

    method AfterTry(tried: bool) returns (next: State)
      requires Valid()
      modifies this, readBuffer, readBuffer.data, writeBuffer, writeBuffer.data
      ensures Valid() && Repr() == old(Repr())
      ensures Turn(View(), next) == Connections.AfterTry(Tried(old(View()), tried))
    {
      hide View, Valid, Member, Shape, Buffer.View, Buffer.Valid, Requests.RequestParser.Valid;
      UpdateNext(View());
      next := Error;
      if tried {
        var ok := UpdateInterests();
        next := if ok then Copy else Error;
      }
      hide Connections.UpdateInterests;
    }

    method RelayToOrigin(bs: seq<byte>, k: Kernel) returns (next: State)
      requires Valid() && |bs| <= View().rb.space
      modifies this, readBuffer, readBuffer.data, writeBuffer, writeBuffer.data
      ensures Valid() && Repr() == old(Repr())
      ensures Turn(View(), next)
           == Connections.AfterTry(Connections.TryWrite(Connections.TakeFromClient(old(View()), bs), old(originFd), k))
    {
      hide View, Valid, Member, Shape, Buffer.View, Buffer.Valid, Requests.RequestParser.Valid,
           Connections.TakeFromClient, Connections.TryWrite, Connections.UpdateInterests;
      TakeFromClient(bs);
      var ok := TryWrite(originFd, k);
      next := AfterTry(ok);
    }

    method CopyFromClient(k: Kernel) returns (next: State)
      requires Valid()
      modifies this, readBuffer, readBuffer.data, writeBuffer, writeBuffer.data
      ensures Valid() && Repr() == old(Repr())
      ensures Turn(View(), next) == Connections.CopyFromClient(old(View()), k)
    {
      hide View, Valid, Member, Shape, Buffer.View, Buffer.Valid, Requests.RequestParser.Valid, MakeRoom, Recv,
           Connections.TakeFromClient, Connections.TryWrite, Connections.UpdateInterests, Connections.AfterTry;
      TrySucceeded();
      var can := ReadBufferCanWrite();
      if !can {
        next := AfterTry(true);
        return;
      }
      var count := readBuffer.WriteRoom();
      match Recv(k, count) {
        case Got(bs) =>
          next := RelayToOrigin(bs, k);
        case Closed => next := Done;
        case RetryLater => next := AfterTry(true);
        case Broken => next := Error;
      }
    }

    method RelayToClient(bs: seq<byte>, k: Kernel) returns (next: State)
      requires Valid() && |bs| <= View().wb.space
      modifies this, readBuffer, readBuffer.data, writeBuffer, writeBuffer.data
      ensures Valid() && Repr() == old(Repr())
      ensures Turn(View(), next)
           == Connections.AfterTry(Connections.TryWrite(Connections.TakeFromOrigin(old(View()), bs), old(clientFd), k))
    {
      hide View, Valid, Member, Shape, Buffer.View, Buffer.Valid, Requests.RequestParser.Valid,
           Connections.TakeFromOrigin, Connections.TryWrite, Connections.UpdateInterests;
      TakeFromOrigin(bs);
      var ok := TryWrite(clientFd, k);
      next := AfterTry(ok);
    }

    method CopyFromOrigin(k: Kernel) returns (next: State)
      requires Valid()
      modifies this, readBuffer, readBuffer.data, writeBuffer, writeBuffer.data
      ensures Valid() && Repr() == old(Repr())
      ensures Turn(View(), next) == Connections.CopyFromOrigin(old(View()), k)
    {
      hide View, Valid, Member, Shape, Buffer.View, Buffer.Valid, Requests.RequestParser.Valid, MakeRoom, Recv,
           Connections.TakeFromOrigin, Connections.TryWrite, Connections.UpdateInterests, Connections.AfterTry;
      TrySucceeded();
      var can := WriteBufferCanWrite();
      if !can {
        next := AfterTry(true);
        return;
      }
      var count := writeBuffer.WriteRoom();
      match Recv(k, count) {
        case Got(bs) =>
          next := RelayToClient(bs, k);
        case Closed => next := Done;
        case RetryLater => next := AfterTry(true);
        case Broken => next := Error;
      }
    }

    /** copy_read */
    method CopyReadReady(fd: int, k: Kernel) returns (next: State)
      requires Valid()
      modifies this, readBuffer, readBuffer.data, writeBuffer, writeBuffer.data
      ensures Valid() && Repr() == old(Repr())
      ensures Turn(View(), next) == Connections.CopyReadReady(old(View()), fd, k)
    {
      hide View, Valid, Member, Shape, Buffer.View, Buffer.Valid, Requests.RequestParser.Valid,
           Connections.CopyFromClient, Connections.CopyFromOrigin;
      if fd == clientFd {
        next := CopyFromClient(k);
      } else if fd == originFd {
        next := CopyFromOrigin(k);
      } else {
        next := Error;
      }
    }

    /** copy_write */
    method CopyWriteReady(fd: int, k: Kernel) returns (next: State)
      requires Valid()
      modifies this, readBuffer, readBuffer.data, writeBuffer, writeBuffer.data
      ensures Valid() && Repr() == old(Repr())
      ensures Turn(View(), next) == Connections.CopyWriteReady(old(View()), fd, k)
    {
      hide View, Valid, Member, Shape, Buffer.View, Buffer.Valid, Requests.RequestParser.Valid, Connections.TryWrite,
           Connections.AfterTry;
      var ok := TryWrite(fd, k);
      next := AfterTry(ok);
    }

    // ---------------------------------------------------------------- the state machine

    method SetState(s: State)
      requires Valid()
      modifies this`current
      ensures Valid() && Repr() == old(Repr()) && View() == old(View()).(current := Some(s))
    {
      hide Shape, Buffer.Valid, Hello.HelloParser.Valid, Auth.AuthParser.Valid, Requests.RequestParser.Valid;
      hide Buffer.View, Hello.HelloParser.View, Auth.AuthParser.View, Requests.RequestParser.View;
      current := Some(s);
    }

    method HelloInit()
      requires Valid()
      modifies this`tag, hello
      ensures Valid() && fresh(Repr() - old(Repr())) && View() == old(View()).(client := HelloSt(Hello.Initial()))
    {
      hide Shape, Buffer.Valid, Auth.AuthParser.Valid, Requests.RequestParser.Valid;
      hello.Init(block.classes);
      tag := HelloTag;
    }

    method AuthInit()
      requires Valid()
      modifies this`tag, this`authorized, auth, auth.username, auth.password
      ensures Valid() && Repr() == old(Repr()) && View() == old(View()).(client := AuthSt(Auth.Initial(), false))
    {
      assert {auth.username, auth.password} !! {readBuffer.data, writeBuffer.data};
      auth.Init();
      hide Shape, Buffer.Valid, Hello.HelloParser.Valid, Requests.RequestParser.Valid;
      tag, authorized := AuthTag, false;
    }

    method RequestInit()
      requires Valid()
      modifies this`tag, this`reply, request, request.addr, request.domain
      ensures Valid() && Repr() == old(Repr())
      ensures View() == old(View()).(client := RequestSt(Requests.Initial(), Requests.GENERAL_FAILURE))
    {
      assert {request.addr, request.domain} !! {readBuffer.data, writeBuffer.data};
      request.Init();
      hide Shape, Buffer.Valid, Hello.HelloParser.Valid, Auth.AuthParser.Valid;
      tag, reply := RequestTag, Requests.GENERAL_FAILURE;
    }

    method ResetWriteBuffer()
      requires Valid()
      modifies writeBuffer
      ensures Valid() && Repr() == old(Repr()) && View() == old(View()).(wb := old(View()).wb.Reset())
    {
      assert readBuffer != writeBuffer;
      hide Shape, Hello.HelloParser.Valid, Auth.AuthParser.Valid, Requests.RequestParser.Valid;
      writeBuffer.Reset();
    }

    /** on_arrival */
    method Arrive(a: Arrival)
      requires Valid()
      modifies Repr()
      ensures Valid() && fresh(Repr() - old(Repr())) && View() == Connections.Arrive(old(View()), a)
    {
      hide View, Valid, Member, Shape, Buffer.View, Buffer.Valid, Requests.RequestParser.Valid,
           Connections.UpdateInterests;
      match a {
        case NoArrival =>
        case HelloInit => HelloInit();
        case AuthInit => AuthInit();
        case RequestInit => RequestInit();
        case CopyInit =>
          ResetWriteBuffer();
          var ok := UpdateInterests();
      }
    }

    method HandleFirst()
      requires Valid()
      modifies Repr()
      ensures Valid() && fresh(Repr() - old(Repr())) && View() == Connections.HandleFirst(old(View()))
    {
      hide View, Valid, Member, Shape, Buffer.View, Buffer.Valid, Requests.RequestParser.Valid, Connections.Arrive;
      if current.None? {
        SetState(HelloRead);
        Arrive(TABLE[0].arrival);
      }
    }

    method Jump(next: State)
      requires Valid()
      modifies Repr()
      ensures Valid() && fresh(Repr() - old(Repr())) && View() == Connections.Jump(old(View()), next)
    {
      hide View, Valid, Member, Shape, Buffer.View, Buffer.Valid, Requests.RequestParser.Valid, Connections.Arrive;
      if current != Some(next) {
        SetState(next);
        Arrive(TABLE[Number(next)].arrival);
      }
    }

    method Invoke(h: Callback, fd: int, k: Kernel) returns (next: State)
      requires Valid() && Connections.Member(View(), h)
      modifies Repr()
      ensures Valid() && Repr() == old(Repr())
      ensures Turn(View(), next) == Connections.Invoke(h, old(View()), fd, k)
    {
      hide View, Valid, Member, Shape, Buffer.View, Buffer.Valid, Requests.RequestParser.Valid,
           Connections.HelloReadReady, Connections.HelloWriteReady, Connections.AuthReadReady,
           Connections.AuthWriteReady, Connections.RequestReadReady, Connections.BlockReady, Connections.ConnectReady,
           Connections.RequestWriteReady, Connections.CopyReadReady, Connections.CopyWriteReady;
      match h {
        case HelloReadC => next := HelloReadReady(k);
        case HelloWriteC => next := HelloWriteReady(k);
        case AuthReadC => next := AuthReadReady(k);
        case AuthWriteC => next := AuthWriteReady(k);
        case RequestReadC => next := RequestReadReady(k);
        case ResolvingC => next := BlockReady(k);
        case ConnectingC => next := ConnectReady(fd, k);
        case RequestWriteC => next := RequestWriteReady(k);
        case CopyReadC => next := CopyReadReady(fd, k);
        case CopyWriteC => next := CopyWriteReady(fd, k);
      }
    }

    /** socksv5_done */
    method Finish() returns (aborted: bool)
      requires Valid()
      modifies this`clientReg, this`originFd, this`originReg, this`references, this`retired
      ensures Valid() && Repr() == old(Repr())
      ensures aborted <==> Connections.Finish(old(View())).Crashed?
      ensures !aborted ==> Alive(View()) == Connections.Finish(old(View()))
    {
      hide View, Valid, Member, Shape, Buffer.View, Buffer.Valid, Requests.RequestParser.Valid, Connections.Release;
      if clientReg.None? {
        return true;
      }
      Release();
      SetClientReg(None);
      if originFd != -1 {
        if originReg.None? {
          return true;
        }
        Release();
        SetOrigin(originFd, None);
      }
      aborted := false;
    }

    /** Is the union member that a callback reads the one last written? */
    method HasMember(h: Callback) returns (b: bool)
      requires Valid()
      ensures b <==> Connections.Member(View(), h)
    {
      match h {
        case HelloReadC => b := tag.HelloTag?;
        case HelloWriteC => b := tag.HelloTag?;
        case AuthReadC => b := tag.AuthTag?;
        case AuthWriteC => b := tag.AuthTag?;
        case RequestReadC => b := tag.RequestTag?;
        case ResolvingC => b := tag.RequestTag?;
        case ConnectingC => b := tag.RequestTag?;
        case RequestWriteC => b := tag.RequestTag?;
        case CopyReadC => b := true;
        case CopyWriteC => b := true;
      }
    }

    /** The jump that a handler asked for, and the close where the machine ends */
    method Follow(next: State) returns (aborted: bool)
      requires Valid()
      modifies Repr()
      ensures Valid() && fresh(Repr() - old(Repr()))
      ensures aborted <==> Followed(old(View()), next).Crashed?
      ensures !aborted ==> Alive(View()) == Followed(old(View()), next)
    {
      hide View, Valid, Member, Shape, Buffer.View, Buffer.Valid, Requests.RequestParser.Valid, Connections.Jump,
           Connections.Finish;
      Jump(next);
      aborted := false;
      if next.Done? || next.Error? {
        aborted := Finish();
      }
    }

    /** socksv5_read, socksv5_write and socksv5_block, through stm_handler_*: abort() or one step of the specification. */
    method Event(kind: EventKind, fd: int, k: Kernel) returns (aborted: bool)
      requires Valid()
      modifies Repr()
      ensures Valid() && fresh(Repr() - old(Repr()))
      ensures aborted <==> Connections.Event(old(View()), kind, fd, k).Crashed?
      ensures !aborted ==> Alive(View()) == Connections.Event(old(View()), kind, fd, k)
    {
      hide View, Valid, Member, Shape, Buffer.View, Buffer.Valid, Requests.RequestParser.Valid,
           Connections.HandleFirst, Connections.Followed, Connections.Invoke, Connections.Member, CallbackFor;
      HandleFirst();
      if current.None? {
        return true;
      }
      var h := CallbackFor(TABLE[Number(current.value)], kind);
      if h.None? {
        return true;
      }
      var readable := HasMember(h.value);
      if !readable {
        return true;
      }
      var next := Invoke(h.value, fd, k);
      aborted := Follow(next);
    }

    /** The queue of jobs is the selector's; this is whether it holds one of this connection. */
    ghost method SetJob(b: bool)
      requires Valid()
      modifies this`job
      ensures Valid() && Repr() == old(Repr()) && View() == old(View()).(job := b)
    {
      hide Shape, Buffer.Valid, Hello.HelloParser.Valid, Auth.AuthParser.Valid, Requests.RequestParser.Valid;
      hide Buffer.View, Hello.HelloParser.View, Auth.AuthParser.View, Requests.RequestParser.View;
      job := b;
    }

    /**
     * Whatever the selector may deliver to a connection that keeps its law, the program does not abort, the
     * connection keeps its law, with its history only longer, and has done what `Protocol` says.
     */
    method Serve(kind: EventKind, fd: int, k: Kernel)
      requires Valid() && Inv(View()) && !Over(View()) && Enabled(View(), kind, fd)
      requires ConnectionSteps.Fresh(View(), k.attempts)
      modifies Repr()
      ensures Valid() && fresh(Repr() - old(Repr()))
      ensures Inv(View()) && Alive(View()) == Dispatch(old(View()), kind, fd, k)
      ensures Grows(old(View()).hist, View().hist) && P.Behaves(old(View()), kind, fd, k, View())
    {
      hide View, Valid, Member, Shape, Buffer.View, Buffer.Valid, Requests.RequestParser.Valid, Inv, Over, Enabled,
           Connections.Event, P.Behaves;
      EventOk(View(), kind, fd, k);
      ProtocolSteps.EventBehaves(View(), kind, fd, k);
      if kind.Block? {
        SetJob(false);
      }
      var aborted := Event(kind, fd, k);
    }

    // ---------------------------------------------------------------- the resolver thread

    method StoreAddresses(list: seq<AddrInfo>)
      requires Valid()
      modifies this`resolution, this`remaining
      ensures Valid() && Repr() == old(Repr()) && View() == old(View()).(resolution := list, remaining := list)
    {
      hide Shape, Buffer.Valid, Hello.HelloParser.Valid, Auth.AuthParser.Valid, Requests.RequestParser.Valid;
      hide Buffer.View, Hello.HelloParser.View, Auth.AuthParser.View, Requests.RequestParser.View;
      resolution, remaining := list, list;
    }

    method ResolverDone(failed: bool)
      requires Valid()
      modifies this`resolutionFailed, this`resolver
      ensures Valid() && Repr() == old(Repr()) && View() == old(View()).(resolutionFailed := failed, resolver := Notified)
    {
      hide Shape, Buffer.Valid, Hello.HelloParser.Valid, Auth.AuthParser.Valid, Requests.RequestParser.Valid;
      hide Buffer.View, Hello.HelloParser.View, Auth.AuthParser.View, Requests.RequestParser.View;
      resolutionFailed, resolver := failed, Notified;
    }

    /** selector_notify_block, which may fail to allocate the job */
    method NotifyBlock(memory: bool)
      requires Valid()
      modifies this`job, this`hist
      ensures Valid() && Repr() == old(Repr())
      ensures View() == old(View()).(job := memory, hist := old(View()).hist.(lost := !memory))
    {
      hide View, Valid, Member, Shape, Buffer.View, Buffer.Valid, Requests.RequestParser.Valid;
      SetJob(memory);
      Note(View().hist.(lost := !memory));
    }

    /** resolver_thread, up to its call of socks5_destroy */
    method Resolve(failed: bool, list: seq<AddrInfo>, memory: bool)
      requires Valid()
      modifies this
      ensures Valid() && Repr() == old(Repr()) && View() == Connections.Resolved(old(View()), failed, list, memory)
    {
      hide View, Valid, Member, Shape, Buffer.View, Buffer.Valid, Requests.RequestParser.Valid;
      StoreAddresses(list);
      NotifyBlock(memory);
      ResolverDone(failed);
    }
  }

  /** copy_buffer_can_write */
  method BufferCanWrite(b: Buffer) returns (can: bool)
    requires b.Valid()
    modifies b, b.data
    ensures b.Valid() && b.View() == MakeRoom(old(b.View())) && can == (b.View().space > 0)
  {
    can := b.CanWrite();
    if !can {
      b.Compact();
    }
    can := b.CanWrite();
  }

  lemma RoomKeepsQueue(f: Fifo)
    ensures MakeRoom(f).queue == f.queue
  {
  }

  lemma TrySucceeded()
    ensures forall c :: Connections.AfterTry(Tried(c, true)) == Connections.UpdateInterests(c)
  {
  }

  lemma UpdateNext(c: Conn)
    ensures Connections.UpdateInterests(c).next in {Copy, Error}
  {
  }

  /** How the functions of `Connections` write what a connect came to. */
  function AsConnect(c: Conn, ok: bool, inProgress: bool, errno: Errno): Connect {
    if ok then Connect.Connecting(c, inProgress) else NotConnected(c, errno)
  }
}
