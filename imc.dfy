/**
 * The slice of the IMC message set and of the imcpy runtime that the keyboard
 * actor touches. Message classes become plain datatypes holding only the
 * fields the actor reads or sets; the node directory, the geodesy routines
 * and the transport are collaborators whose behaviour is a parameter.
 */
module Imc {
  import opened Wrappers

  /** An EstimatedState telemetry message. The envelope (source system and
      entity) is what the node directory resolves; the position fields are
      only ever handed to the geodesy collaborator. */
  datatype EstimatedState = EstimatedState(
    src: nat, srcEnt: nat,
    lat: real, lon: real, height: real,
    x: real, y: real, z: real)

  datatype ZUnits = ZNone | Depth | Altitude | Height

  datatype SpeedUnits = MetersPs | Rpm | Percentage

  /** A Goto maneuver; the fields the actor leaves at their defaults are not modelled. */
  datatype Goto = Goto(
    z: real, zUnits: ZUnits,
    lat: real, lon: real,
    speed: real, speedUnits: SpeedUnits)

  datatype PlanManeuver = PlanManeuver(maneuverId: string, data: Goto)

  /** A plan: its maneuvers in execution order and the id of the one to start with. */
  datatype PlanSpecification = PlanSpecification(
    planId: string,
    description: string,
    startManId: string,
    maneuvers: seq<PlanManeuver>)

  datatype PlanControlType = Request | Success | Failure | InProgress

  datatype PlanControlOp = Start | Stop | Load | Get

  datatype PlanControl = PlanControl(
    kind: PlanControlType,
    op: PlanControlOp,
    planId: string,
    arg: PlanSpecification)

  /** The messages the actor sends: an Abort (no payload) or a PlanControl. */
  datatype Outbound = Abort | Control(pc: PlanControl)

  /** What `send` is given as destination: a system name, or a received
      message whose originating node is to be addressed. */
  datatype Destination = ToName(name: string) | ToSourceOf(msg: EstimatedState)

  /** The node directory: the name of the node each known message came from.
      A message that is not a key is one `resolve_node_id` raises KeyError on. */
  type Directory = map<EstimatedState, string>

  datatype KeyError = KeyError

  function ResolveNodeId(dir: Directory, msg: EstimatedState): (r: Result<string, KeyError>)
    ensures r.Ok? <==> msg in dir
    ensures r.Ok? ==> r.value == dir[msg]
  {
    if msg in dir then Ok(dir[msg]) else Err(KeyError)
  }

  /** The coordinate routines: conversion of a state to (lat, lon, height) and
      displacement of a position by metres north and east. Nothing is assumed
      about their results. */
  datatype Geodesy = Geodesy(
    toWGS84: EstimatedState -> (real, real, real),
    displace: (real, real, real, real) -> (real, real))

  /** A well-formed plan: at least one maneuver, maneuver ids unique, and the
      start id naming one of the maneuvers. */
  ghost predicate ValidPlan(spec: PlanSpecification) {
    && |spec.maneuvers| >= 1
    && (forall i, j :: 0 <= i < j < |spec.maneuvers| ==>
          spec.maneuvers[i].maneuverId != spec.maneuvers[j].maneuverId)
    && (exists i :: 0 <= i < |spec.maneuvers| && spec.maneuvers[i].maneuverId == spec.startManId)
  }
}
