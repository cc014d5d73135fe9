// The server's unified error type (src/error.rs): fifteen variants, each
// displayed as a fixed prefix followed by its message, and the conversion
// of an error into a gRPC status.

module Errors {
  import opened Wrappers
  import Grpc

  /** The variants. Io, Net and Serialization wrap a foreign error, represented by its display text;
      a gRPC error keeps the wrapped status (passed on unchanged to a client) together with the
      status's own display text (tonic's format, which lists code, message, details and metadata). */
  datatype Error =
    | Io(detail: string)
    | Net(detail: string)
    | WebSocket(msg: string)
    | Cdp(msg: string)
    | GrpcError(status: Grpc.Status, shown: string)
    | Serialization(detail: string)
    | SessionNotFound(msg: string)
    | BrowserNotFound(msg: string)
    | PageNotFound(msg: string)
    | ElementNotFound(msg: string)
    | Timeout(msg: string)
    | NavigationFailed(msg: string)
    | ScriptExecutionFailed(msg: string)
    | Configuration(msg: string)
    | Internal(msg: string)

  datatype Kind =
    | IoKind | NetKind | WebSocketKind | CdpKind | GrpcKind | SerializationKind
    | SessionNotFoundKind | BrowserNotFoundKind | PageNotFoundKind | ElementNotFoundKind
    | TimeoutKind | NavigationFailedKind | ScriptExecutionFailedKind | ConfigurationKind
    | InternalKind

  const AllKinds: seq<Kind> :=
    [IoKind, NetKind, WebSocketKind, CdpKind, GrpcKind, SerializationKind,
     SessionNotFoundKind, BrowserNotFoundKind, PageNotFoundKind, ElementNotFoundKind,
     TimeoutKind, NavigationFailedKind, ScriptExecutionFailedKind, ConfigurationKind,
     InternalKind]

  function KindOf(e: Error): Kind
  {
    match e
    case Io(_) => IoKind
    case Net(_) => NetKind
    case WebSocket(_) => WebSocketKind
    case Cdp(_) => CdpKind
    case GrpcError(_, _) => GrpcKind
    case Serialization(_) => SerializationKind
    case SessionNotFound(_) => SessionNotFoundKind
    case BrowserNotFound(_) => BrowserNotFoundKind
    case PageNotFound(_) => PageNotFoundKind
    case ElementNotFound(_) => ElementNotFoundKind
    case Timeout(_) => TimeoutKind
    case NavigationFailed(_) => NavigationFailedKind
    case ScriptExecutionFailed(_) => ScriptExecutionFailedKind
    case Configuration(_) => ConfigurationKind
    case Internal(_) => InternalKind
  }

  /** The text that follows the prefix: the message, or the wrapped error's own text. */
  function Detail(e: Error): string
  {
    match e
    case Io(d) => d
    case Net(d) => d
    case Serialization(d) => d
    case GrpcError(_, t) => t
    case WebSocket(m) => m
    case Cdp(m) => m
    case SessionNotFound(m) => m
    case BrowserNotFound(m) => m
    case PageNotFound(m) => m
    case ElementNotFound(m) => m
    case Timeout(m) => m
    case NavigationFailed(m) => m
    case ScriptExecutionFailed(m) => m
    case Configuration(m) => m
    case Internal(m) => m
  }

  /** The first three characters of a variant's prefix; they already tell the variants apart. */
  function Tag(k: Kind): (t: string)
    ensures |t| == 3
  {
    match k
    case IoKind => "I/O"
    case NetKind => "Net"
    case WebSocketKind => "Web"
    case CdpKind => "CDP"
    case GrpcKind => "gRP"
    case SerializationKind => "Ser"
    case SessionNotFoundKind => "Ses"
    case BrowserNotFoundKind => "Bro"
    case PageNotFoundKind => "Pag"
    case ElementNotFoundKind => "Ele"
    case TimeoutKind => "Ope"
    case NavigationFailedKind => "Nav"
    case ScriptExecutionFailedKind => "Scr"
    case ConfigurationKind => "Con"
    case InternalKind => "Int"
  }

  /** The fixed text the variant's message is displayed after. */
  function Prefix(k: Kind): (p: string)
    ensures |p| >= 3 && p[..3] == Tag(k)
  {
    match k
    case IoKind => "I/O error: "
    case NetKind => "Network error: "
    case WebSocketKind => "WebSocket error: "
    case CdpKind => "CDP error: "
    case GrpcKind => "gRPC error: "
    case SerializationKind => "Serialization error: "
    case SessionNotFoundKind => "Session not found: "
    case BrowserNotFoundKind => "Browser not found: "
    case PageNotFoundKind => "Page not found: "
    case ElementNotFoundKind => "Element not found: "
    case TimeoutKind => "Operation timeout: "
    case NavigationFailedKind => "Navigation failed: "
    case ScriptExecutionFailedKind => "Script execution failed: "
    case ConfigurationKind => "Configuration error: "
    case InternalKind => "Internal error: "
  }

  /** The Display text of an error. */
  function Display(e: Error): (s: string)
    ensures |s| >= |Prefix(KindOf(e))|
  {
    Prefix(KindOf(e)) + Detail(e)
  }

  /** From<Error> for tonic::Status: a gRPC error passes its status through; every other error keeps its display text under the code of its group. */
  function ToStatus(e: Error): (s: Grpc.Status)
    ensures e.GrpcError? ==> s == e.status
    ensures !e.GrpcError? ==> s.message == Display(e)
  {
    match e
    case SessionNotFound(_) => Grpc.Status(Grpc.NotFound, Display(e))
    case BrowserNotFound(_) => Grpc.Status(Grpc.NotFound, Display(e))
    case PageNotFound(_) => Grpc.Status(Grpc.NotFound, Display(e))
    case Timeout(_) => Grpc.Status(Grpc.DeadlineExceeded, Display(e))
    case NavigationFailed(_) => Grpc.Status(Grpc.Aborted, Display(e))
    case ScriptExecutionFailed(_) => Grpc.Status(Grpc.Aborted, Display(e))
    case Configuration(_) => Grpc.Status(Grpc.InvalidArgument, Display(e))
    case GrpcError(status, _) => status
    case _ => Grpc.Status(Grpc.Internal, Display(e))
  }

  // ------------------------------------------------------------ lemmas

  /** Each status code is produced by exactly its group of variants (other than a passed-through gRPC status). */
  lemma StatusCodeGroups(e: Error)
    requires !e.GrpcError?
    ensures ToStatus(e).code == Grpc.NotFound <==> e.SessionNotFound? || e.BrowserNotFound? || e.PageNotFound?
    ensures ToStatus(e).code == Grpc.DeadlineExceeded <==> e.Timeout?
    ensures ToStatus(e).code == Grpc.Aborted <==> e.NavigationFailed? || e.ScriptExecutionFailed?
    ensures ToStatus(e).code == Grpc.InvalidArgument <==> e.Configuration?
    ensures ToStatus(e).code == Grpc.Internal <==>
              e.Io? || e.Net? || e.WebSocket? || e.Cdp? || e.Serialization? || e.ElementNotFound? || e.Internal?
  {
  }

  /** Different variants have different prefixes, already in their first three characters. */
  lemma PrefixTagsDistinct(k1: Kind, k2: Kind)
    requires Prefix(k1)[..3] == Prefix(k2)[..3]
    ensures k1 == k2
  {
  }

  /** Inverse of Display: the variant whose prefix starts the text, and the rest of the text. */
  function ParseDisplay(s: string): (r: Option<(Kind, string)>)
    ensures r.Some? ==> s == Prefix(r.value.0) + r.value.1
  {
    ParseWith(s, AllKinds)
  }

  function ParseWith(s: string, ks: seq<Kind>): (r: Option<(Kind, string)>)
    ensures r.Some? ==> s == Prefix(r.value.0) + r.value.1 && r.value.0 in ks
  {
    if |ks| == 0 then None
    else
      var p := Prefix(ks[0]);
      if p <= s then Some((ks[0], s[|p|..]))
      else ParseWith(s, ks[1..])
  }

  lemma {:induction false} ParseWithFinds(k: Kind, d: string, ks: seq<Kind>)
    requires k in ks
    ensures ParseWith(Prefix(k) + d, ks) == Some((k, d))
  {
    var s := Prefix(k) + d;
    var p := Prefix(ks[0]);
    if ks[0] == k {
      AfterPrefix(p, d);
    } else {
      if p <= s {
        SharedHead(p, Prefix(k), d);
        PrefixTagsDistinct(ks[0], k);
      }
      assert k in ks[1..];
      ParseWithFinds(k, d, ks[1..]);
    }
  }

  lemma AfterPrefix(p: string, d: string)
    ensures (p + d)[|p|..] == d
  {
  }

  /** Two texts of at least three characters, one a prefix of the other followed by more, begin alike. */
  lemma SharedHead(p: string, q: string, d: string)
    requires |p| >= 3 && |q| >= 3 && p <= q + d
    ensures p[..3] == q[..3]
  {
    assert p[..3] == (q + d)[..3];
  }

  /** The display text determines the variant and the text after its prefix: the message of a
      variant carrying one, and the wrapped value's own display text for the four foreign wrappers. */
  lemma ParseDisplayOfDisplay(e: Error)
    ensures ParseDisplay(Display(e)) == Some((KindOf(e), Detail(e)))
  {
    ParseWithFinds(KindOf(e), Detail(e), AllKinds);
  }

  /** Two errors with the same display text are the same variant with the same message. */
  lemma DisplayInjective(e1: Error, e2: Error)
    requires Display(e1) == Display(e2)
    ensures KindOf(e1) == KindOf(e2) && Detail(e1) == Detail(e2)
  {
    ParseDisplayOfDisplay(e1);
    ParseDisplayOfDisplay(e2);
  }
}
