/**
 * The gateway's numeric error codes and its per-attribute success/error
 * envelope, `src/connection.rs`. On the wire the error kind is a bare
 * number (`#[repr(u16)]`); only numbers in the table decode.
 */
module ErrorCodes {
  import opened Wrappers
  import opened Ints

  datatype DeconzErrorType =
    | UnauthorizedUser
    | InvalidJson
    | ResourceNotAvailable
    | MethodNotAvailable
    | MissingParameter
    | ParameterNotAvailable
    | InvalidValue
    | ParameterNotModifiable
    | TooManyItems
    | DuplicateExist
    | NotAllowedSensorType
    | SensorListFull
    | RuleEngineFull
    | ConditionError
    | ActionError
    | InternalError
    | NotConnected
    | BridgeBusy
    | LinkButtonNotPressed
    | DeviceOff
    | DeviceNotReachable
    | BridgeGroupTableFull
    | DeviceGroupTableFull
    | DeviceScenesTableFull

  /** The codes the table defines, and no others. */
  const KnownCodes: set<int> :=
    {1, 2, 3, 4, 5, 6, 7, 8, 11, 100, 101, 201, 202, 301, 302, 402, 501, 502, 601, 607, 608, 901, 950, 951}

  /** The number a variant is written as. */
  function Code(e: DeconzErrorType): (c: U16)
    ensures c in KnownCodes
    ensures 0 < c
  {
    match e
    case UnauthorizedUser => 1
    case InvalidJson => 2
    case ResourceNotAvailable => 3
    case MethodNotAvailable => 4
    case MissingParameter => 5
    case ParameterNotAvailable => 6
    case InvalidValue => 7
    case ParameterNotModifiable => 8
    case TooManyItems => 11
    case DuplicateExist => 100
    case NotAllowedSensorType => 501
    case SensorListFull => 502
    case RuleEngineFull => 601
    case ConditionError => 607
    case ActionError => 608
    case InternalError => 901
    case NotConnected => 950
    case BridgeBusy => 951
    case LinkButtonNotPressed => 101
    case DeviceOff => 201
    case DeviceNotReachable => 202
    case BridgeGroupTableFull => 301
    case DeviceGroupTableFull => 302
    case DeviceScenesTableFull => 402
  }

  /** The variant a number is read as; a number outside the table has none (there is no fallback variant). */
  function FromCode(c: int): (r: Option<DeconzErrorType>)
    ensures r.Some? <==> c in KnownCodes
    ensures r.Some? ==> Code(r.value) == c
  {
    match c
    case 1 => Some(UnauthorizedUser)
    case 2 => Some(InvalidJson)
    case 3 => Some(ResourceNotAvailable)
    case 4 => Some(MethodNotAvailable)
    case 5 => Some(MissingParameter)
    case 6 => Some(ParameterNotAvailable)
    case 7 => Some(InvalidValue)
    case 8 => Some(ParameterNotModifiable)
    case 11 => Some(TooManyItems)
    case 100 => Some(DuplicateExist)
    case 501 => Some(NotAllowedSensorType)
    case 502 => Some(SensorListFull)
    case 601 => Some(RuleEngineFull)
    case 607 => Some(ConditionError)
    case 608 => Some(ActionError)
    case 901 => Some(InternalError)
    case 950 => Some(NotConnected)
    case 951 => Some(BridgeBusy)
    case 101 => Some(LinkButtonNotPressed)
    case 201 => Some(DeviceOff)
    case 202 => Some(DeviceNotReachable)
    case 301 => Some(BridgeGroupTableFull)
    case 302 => Some(DeviceGroupTableFull)
    case 402 => Some(DeviceScenesTableFull)
    case _ => None
  }

  /** Reading back the number a variant is written as gives that variant. */
  lemma CodeRoundTrip(e: DeconzErrorType)
    ensures FromCode(Code(e)) == Some(e)
  {
  }

  /** No two variants share a number. */
  lemma CodesDistinct(e1: DeconzErrorType, e2: DeconzErrorType)
    ensures Code(e1) == Code(e2) ==> e1 == e2
  {
    CodeRoundTrip(e1);
    CodeRoundTrip(e2);
  }

  /** `RequestResponse`: one element of a gateway reply. */
  datatype RequestResponse<S> =
    | Error(kind: DeconzErrorType, address: string, description: string)
    | Success(payload: S)

  /** The same element as it stands in the JSON body, with the error kind still a number. */
  datatype WireResponse<S> =
    | WireError(code: int, address: string, description: string)
    | WireSuccess(payload: S)

  /** The wire form of an element: the error kind written as the number that reads back as that kind. */
  function EncodeResponse<S>(r: RequestResponse<S>): (w: WireResponse<S>)
    ensures w.WireSuccess? <==> r.Success?
    ensures w.WireSuccess? ==> w.payload == r.payload
    ensures w.WireError? ==>
      FromCode(w.code) == Some(r.kind) && w.address == r.address && w.description == r.description
  {
    match r
    case Error(k, a, d) => WireError(Code(k), a, d)
    case Success(p) => WireSuccess(p)
  }

  function DecodeResponse<S>(w: WireResponse<S>): (r: Option<RequestResponse<S>>)
    ensures r.None? <==> w.WireError? && w.code !in KnownCodes
    ensures r.Some? ==> EncodeResponse(r.value) == w
  {
    match w
    case WireError(c, a, d) =>
      (match FromCode(c)
       case Some(k) => Some(Error(k, a, d))
       case None => None)
    case WireSuccess(p) => Some(Success(p))
  }

  /** Decoding a reply array: it fails as a whole when any element fails. */
  function DecodeResponses<S>(ws: seq<WireResponse<S>>): (r: Option<seq<RequestResponse<S>>>)
    ensures r.None? <==> exists i :: 0 <= i < |ws| && DecodeResponse(ws[i]).None?
    ensures r.Some? ==> |r.value| == |ws|
    ensures r.Some? ==> forall i :: 0 <= i < |ws| ==> DecodeResponse(ws[i]) == Some(r.value[i])
  {
    if ws == [] then Some([])
    else
      match (DecodeResponse(ws[0]), DecodeResponses(ws[1..]))
      case (Some(head), Some(tail)) =>
        assert forall i :: 1 <= i < |ws| ==> ws[i] == ws[1..][i - 1];
        Some([head] + tail)
      case (None, _) => None
      case (_, None) =>
        assert forall i :: 0 <= i < |ws[1..]| ==> ws[1..][i] == ws[i + 1];
        None
  }

  function EncodeResponses<S>(rs: seq<RequestResponse<S>>): (ws: seq<WireResponse<S>>)
    ensures |ws| == |rs|
    ensures forall i :: 0 <= i < |rs| ==> ws[i] == EncodeResponse(rs[i])
  {
    if rs == [] then [] else [EncodeResponse(rs[0])] + EncodeResponses(rs[1..])
  }

  /** Writing a reply array and reading it back gives the same envelopes, in the same order. */
  lemma ResponsesRoundTrip<S>(rs: seq<RequestResponse<S>>)
    ensures DecodeResponses(EncodeResponses(rs)) == Some(rs)
  {
    var ws := EncodeResponses(rs);
    forall i | 0 <= i < |ws| ensures DecodeResponse(ws[i]) == Some(rs[i]) {
      match rs[i]
      case Error(k, _, _) => CodeRoundTrip(k);
      case Success(_) =>
    }
    var r := DecodeResponses(ws);
    assert r.Some?;
    assert r.value == rs by {
      forall i | 0 <= i < |rs| ensures r.value[i] == rs[i] {
        assert DecodeResponse(ws[i]) == Some(r.value[i]);
      }
    }
  }

  /** One element with an unknown error number makes the whole array undecodable. */
  lemma UnknownCodeSpoilsReply<S>(ws: seq<WireResponse<S>>, i: nat)
    requires i < |ws| && ws[i].WireError? && ws[i].code !in KnownCodes
    ensures DecodeResponses(ws).None?
  {
    assert DecodeResponse(ws[i]).None?;
  }

  /**
   * A partial write: the brightness was accepted and the power switch was
   * refused with 201, which reads as DeviceOff.
   */
  lemma PartialWriteReply<S>(accepted: S)
    ensures DecodeResponses([WireSuccess(accepted), WireError(201, "/lights/1/state/on", "device is off")])
         == Some([Success(accepted), Error(DeviceOff, "/lights/1/state/on", "device is off")])
  {
    var ws := [WireSuccess(accepted), WireError(201, "/lights/1/state/on", "device is off")];
    var expected := [Success(accepted), Error(DeviceOff, "/lights/1/state/on", "device is off")];
    assert DecodeResponse(ws[0]) == Some(expected[0]);
    assert DecodeResponse(ws[1]) == Some(expected[1]);
    var r := DecodeResponses(ws);
    assert r.Some?;
    assert r.value == expected by {
      assert DecodeResponse(ws[0]) == Some(r.value[0]);
      assert DecodeResponse(ws[1]) == Some(r.value[1]);
    }
  }
}
