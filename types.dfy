/**
 * The record shapes shared by the server, the counting service and the camera node
 * (opencv-person-counter/src/types/index.ts).
 */
module Types {
  /** `status: 'online' | 'offline'` */
  datatype Status = Online | Offline

  /** `type: 'entry' | 'exit' | 'both'`: the directional role of a camera. */
  datatype CameraType = EntryCamera | ExitCamera | BothCamera

  /** `direction: 'in' | 'out'` of a detection. */
  datatype Direction = In | Out

  /**
   * A rectangular zone. Coordinates are integers, as every configuration in the
   * system writes them; `enabled` is false where the source leaves the flag out.
   */
  datatype Zone = Zone(enabled: bool, x: int, y: int, width: int, height: int)

  /** The `zones: { entry, exit }` pair of a camera configuration. */
  datatype Zones = Zones(entry: Zone, exit: Zone)

  /** `type: 'wrong_direction' | 'system_error' | 'high_capacity'` */
  datatype AlarmKind = WrongDirectionAlarm | SystemErrorAlarm | HighCapacityAlarm

  /** `severity: 'info' | 'warning' | 'error'` */
  datatype Severity = Info | Warning | Error

  datatype Alarm = Alarm(
    id: string,
    title: string,
    description: string,
    camera: string,
    kind: AlarmKind,
    timestamp: nat,
    severity: Severity)

  /** The zone geometry the server pushes to a newly registered camera and gives a new service record. */
  const DefaultZones: Zones :=
    Zones(Zone(true, 100, 200, 300, 100), Zone(true, 500, 200, 300, 100))
}
