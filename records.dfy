/** The record model of `vfi_configuration_file.hpp`: the two constraint
    structs and the closed variant `RawData` over them. */
module Records {

  const INT_MIN: int := -0x8000_0000
  const INT_MAX: int := 0x7fff_ffff

  /** C++ `int` on the platforms the editor targets. */
  type Int32 = x: int | INT_MIN <= x <= INT_MAX

  /** A finite C++ `double`, represented by its exact value. */
  type Double = real

  /** `std::variant<ENVIRONMENT_TO_ROBOT_RAW_DATA, ROBOT_TO_ROBOT_RAW_DATA>`.
      Both alternatives carry `vfiType`, `safeDistance`, `vfiGain`,
      `direction` and `tag`, so those destructors are total. */
  datatype RawData =
    | EnvironmentToRobotData(
        vfiType: string,
        csEntityEnvironment: seq<string>,
        csEntityRobot: seq<string>,
        entityEnvironmentPrimitiveType: string,
        entityRobotPrimitiveType: string,
        robotIndex: Int32,
        jointIndex: Int32,
        safeDistance: Double,
        vfiGain: Double,
        direction: string,
        tag: string)
    | RobotToRobotData(
        vfiType: string,
        csEntityOne: seq<string>,
        csEntityTwo: seq<string>,
        entityOnePrimitiveType: string,
        entityTwoPrimitiveType: string,
        robotIndexOne: Int32,
        robotIndexTwo: Int32,
        jointIndexOne: Int32,
        jointIndexTwo: Int32,
        safeDistance: Double,
        vfiGain: Double,
        direction: string,
        tag: string)

  /** The editor's `VFI_TYPE` enumeration. */
  datatype VfiType = EnvironmentToRobot | RobotToRobot

  const ENVIRONMENT_TO_ROBOT: string := "ENVIRONMENT_TO_ROBOT"
  const ROBOT_TO_ROBOT: string := "ROBOT_TO_ROBOT"

  /** The `vfi_type` string that names a kind in the configuration file. */
  function VfiTypeName(t: VfiType): string {
    match t
    case EnvironmentToRobot => ENVIRONMENT_TO_ROBOT
    case RobotToRobot => ROBOT_TO_ROBOT
  }

  /** `_get_vfi_type`: which alternative the variant holds. The variant is
      closed, so the source's "Unsupported VFI TYPE!" branch has no case here. */
  function GetVfiType(data: RawData): (t: VfiType)
    ensures t == EnvironmentToRobot <==> data.EnvironmentToRobotData?
    ensures t == RobotToRobot <==> data.RobotToRobotData?
  {
    match data
    case EnvironmentToRobotData(_, _, _, _, _, _, _, _, _, _, _) => EnvironmentToRobot
    case RobotToRobotData(_, _, _, _, _, _, _, _, _, _, _, _, _) => RobotToRobot
  }

  /** `_extract_tag`: every alternative has a `tag`. */
  function ExtractTag(data: RawData): string {
    data.tag
  }
}
