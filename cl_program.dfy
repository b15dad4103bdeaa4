/**
 * The host-side logic of the OpenCL renderer: the status-code names used in
 * its diagnostics, the checks its constructor makes on each device call,
 * the sizes of its two device buffers, and the frame read-back into a
 * destination surface. The device calls themselves are not modelled; their
 * status codes and results are inputs.
 */
module ClProgram {
  import opened Wrappers
  import Strings
  import Surfaces

  /** cl_int: a signed 32-bit integer. */
  type ClInt = n: int | Strings.InIntRange(n)

  const ClSuccess: ClInt := 0
  const ClDeviceNotFound: ClInt := -1
  const ClBuildProgramFailure: ClInt := -11

  /** sizeof(cl_int). */
  const SizeOfClInt: nat := 4
  /** sizeof(cl_float3): a three-component vector is laid out like a four-component one. */
  const SizeOfClFloat3: nat := 16

  // ---------------------------------------------------------------------
  // Status codes and their names
  // ---------------------------------------------------------------------

  /**
   * The identifiers of the status codes the renderer names: the run-time
   * and compiler codes of OpenCL 1.2, its invalid-argument codes, and the
   * cl_khr_gl_sharing, cl_khr_icd and cl_khr_d3d10_sharing extension codes.
   */
  const CL_SUCCESS: string := "CL_SUCCESS"
  const CL_DEVICE_NOT_FOUND: string := "CL_DEVICE_NOT_FOUND"
  const CL_DEVICE_NOT_AVAILABLE: string := "CL_DEVICE_NOT_AVAILABLE"
  const CL_COMPILER_NOT_AVAILABLE: string := "CL_COMPILER_NOT_AVAILABLE"
  const CL_MEM_OBJECT_ALLOCATION_FAILURE: string := "CL_MEM_OBJECT_ALLOCATION_FAILURE"
  const CL_OUT_OF_RESOURCES: string := "CL_OUT_OF_RESOURCES"
  const CL_OUT_OF_HOST_MEMORY: string := "CL_OUT_OF_HOST_MEMORY"
  const CL_PROFILING_INFO_NOT_AVAILABLE: string := "CL_PROFILING_INFO_NOT_AVAILABLE"
  const CL_MEM_COPY_OVERLAP: string := "CL_MEM_COPY_OVERLAP"
  const CL_IMAGE_FORMAT_MISMATCH: string := "CL_IMAGE_FORMAT_MISMATCH"
  const CL_IMAGE_FORMAT_NOT_SUPPORTED: string := "CL_IMAGE_FORMAT_NOT_SUPPORTED"
  const CL_MAP_FAILURE: string := "CL_MAP_FAILURE"
  const CL_MISALIGNED_SUB_BUFFER_OFFSET: string := "CL_MISALIGNED_SUB_BUFFER_OFFSET"
  const CL_EXEC_STATUS_ERROR_FOR_EVENTS_IN_WAIT_LIST: string := "CL_EXEC_STATUS_ERROR_FOR_EVENTS_IN_WAIT_LIST"
  const CL_COMPILE_PROGRAM_FAILURE: string := "CL_COMPILE_PROGRAM_FAILURE"
  const CL_LINKER_NOT_AVAILABLE: string := "CL_LINKER_NOT_AVAILABLE"
  const CL_LINK_PROGRAM_FAILURE: string := "CL_LINK_PROGRAM_FAILURE"
  const CL_DEVICE_PARTITION_FAILED: string := "CL_DEVICE_PARTITION_FAILED"
  const CL_KERNEL_ARG_INFO_NOT_AVAILABLE: string := "CL_KERNEL_ARG_INFO_NOT_AVAILABLE"
  const CL_INVALID_VALUE: string := "CL_INVALID_VALUE"
  const CL_INVALID_DEVICE_TYPE: string := "CL_INVALID_DEVICE_TYPE"
  const CL_INVALID_PLATFORM: string := "CL_INVALID_PLATFORM"
  const CL_INVALID_DEVICE: string := "CL_INVALID_DEVICE"
  const CL_INVALID_CONTEXT: string := "CL_INVALID_CONTEXT"
  const CL_INVALID_QUEUE_PROPERTIES: string := "CL_INVALID_QUEUE_PROPERTIES"
  const CL_INVALID_COMMAND_QUEUE: string := "CL_INVALID_COMMAND_QUEUE"
  const CL_INVALID_HOST_PTR: string := "CL_INVALID_HOST_PTR"
  const CL_INVALID_MEM_OBJECT: string := "CL_INVALID_MEM_OBJECT"
  const CL_INVALID_IMAGE_FORMAT_DESCRIPTOR: string := "CL_INVALID_IMAGE_FORMAT_DESCRIPTOR"
  const CL_INVALID_IMAGE_SIZE: string := "CL_INVALID_IMAGE_SIZE"
  const CL_INVALID_SAMPLER: string := "CL_INVALID_SAMPLER"
  const CL_INVALID_BINARY: string := "CL_INVALID_BINARY"
  const CL_INVALID_BUILD_OPTIONS: string := "CL_INVALID_BUILD_OPTIONS"
  const CL_INVALID_PROGRAM: string := "CL_INVALID_PROGRAM"
  const CL_INVALID_PROGRAM_EXECUTABLE: string := "CL_INVALID_PROGRAM_EXECUTABLE"
  const CL_INVALID_KERNEL_NAME: string := "CL_INVALID_KERNEL_NAME"
  const CL_INVALID_KERNEL_DEFINITION: string := "CL_INVALID_KERNEL_DEFINITION"
  const CL_INVALID_KERNEL: string := "CL_INVALID_KERNEL"
  const CL_INVALID_ARG_INDEX: string := "CL_INVALID_ARG_INDEX"
  const CL_INVALID_ARG_VALUE: string := "CL_INVALID_ARG_VALUE"
  const CL_INVALID_ARG_SIZE: string := "CL_INVALID_ARG_SIZE"
  const CL_INVALID_KERNEL_ARGS: string := "CL_INVALID_KERNEL_ARGS"
  const CL_INVALID_WORK_DIMENSION: string := "CL_INVALID_WORK_DIMENSION"
  const CL_INVALID_WORK_GROUP_SIZE: string := "CL_INVALID_WORK_GROUP_SIZE"
  const CL_INVALID_WORK_ITEM_SIZE: string := "CL_INVALID_WORK_ITEM_SIZE"
  const CL_INVALID_GLOBAL_OFFSET: string := "CL_INVALID_GLOBAL_OFFSET"
  const CL_INVALID_EVENT_WAIT_LIST: string := "CL_INVALID_EVENT_WAIT_LIST"
  const CL_INVALID_EVENT: string := "CL_INVALID_EVENT"
  const CL_INVALID_OPERATION: string := "CL_INVALID_OPERATION"
  const CL_INVALID_GL_OBJECT: string := "CL_INVALID_GL_OBJECT"
  const CL_INVALID_BUFFER_SIZE: string := "CL_INVALID_BUFFER_SIZE"
  const CL_INVALID_MIP_LEVEL: string := "CL_INVALID_MIP_LEVEL"
  const CL_INVALID_GLOBAL_WORK_SIZE: string := "CL_INVALID_GLOBAL_WORK_SIZE"
  const CL_INVALID_PROPERTY: string := "CL_INVALID_PROPERTY"
  const CL_INVALID_IMAGE_DESCRIPTOR: string := "CL_INVALID_IMAGE_DESCRIPTOR"
  const CL_INVALID_COMPILER_OPTIONS: string := "CL_INVALID_COMPILER_OPTIONS"
  const CL_INVALID_LINKER_OPTIONS: string := "CL_INVALID_LINKER_OPTIONS"
  const CL_INVALID_DEVICE_PARTITION_COUNT: string := "CL_INVALID_DEVICE_PARTITION_COUNT"
  const CL_INVALID_GL_SHAREGROUP_REFERENCE_KHR: string := "CL_INVALID_GL_SHAREGROUP_REFERENCE_KHR"
  const CL_PLATFORM_NOT_FOUND_KHR: string := "CL_PLATFORM_NOT_FOUND_KHR"
  const CL_INVALID_D3D10_DEVICE_KHR: string := "CL_INVALID_D3D10_DEVICE_KHR"
  const CL_INVALID_D3D10_RESOURCE_KHR: string := "CL_INVALID_D3D10_RESOURCE_KHR"
  const CL_D3D10_RESOURCE_ALREADY_ACQUIRED_KHR: string := "CL_D3D10_RESOURCE_ALREADY_ACQUIRED_KHR"
  const CL_D3D10_RESOURCE_NOT_ACQUIRED_KHR: string := "CL_D3D10_RESOURCE_NOT_ACQUIRED_KHR"

  /** The codes with a fixed name: 0 to -19 except -11, -30 to -68, and -1000 to -1005. */
  predicate IsNamedCode(code: int) {
    (-19 <= code <= 0 && code != -11) || -68 <= code <= -30 || -1005 <= code <= -1000
  }

  const UnknownPrefix: string := "Unknown OpenCL error \""

  /** The message for a code without a name: Unknown OpenCL error "n". */
  function UnknownError(code: int): (r: string)
    ensures UnknownPrefix <= r && |r| > |UnknownPrefix| + 1
    ensures r[|r| - 1] == '"'
  {
    UnknownPrefix + Strings.IntToString(code) + "\""
  }

  /**
   * The fixed names of the status codes: every named code maps to the
   * identifier OpenCL gives it.
   */
  function ErrorName(code: int): (r: Option<string>)
    ensures r.Some? <==> IsNamedCode(code)
  {
    match code
    case 0 => Some(CL_SUCCESS)
    case -1 => Some(CL_DEVICE_NOT_FOUND)
    case -2 => Some(CL_DEVICE_NOT_AVAILABLE)
    case -3 => Some(CL_COMPILER_NOT_AVAILABLE)
    case -4 => Some(CL_MEM_OBJECT_ALLOCATION_FAILURE)
    case -5 => Some(CL_OUT_OF_RESOURCES)
    case -6 => Some(CL_OUT_OF_HOST_MEMORY)
    case -7 => Some(CL_PROFILING_INFO_NOT_AVAILABLE)
    case -8 => Some(CL_MEM_COPY_OVERLAP)
    case -9 => Some(CL_IMAGE_FORMAT_MISMATCH)
    case -10 => Some(CL_IMAGE_FORMAT_NOT_SUPPORTED)
    case -12 => Some(CL_MAP_FAILURE)
    case -13 => Some(CL_MISALIGNED_SUB_BUFFER_OFFSET)
    case -14 => Some(CL_EXEC_STATUS_ERROR_FOR_EVENTS_IN_WAIT_LIST)
    case -15 => Some(CL_COMPILE_PROGRAM_FAILURE)
    case -16 => Some(CL_LINKER_NOT_AVAILABLE)
    case -17 => Some(CL_LINK_PROGRAM_FAILURE)
    case -18 => Some(CL_DEVICE_PARTITION_FAILED)
    case -19 => Some(CL_KERNEL_ARG_INFO_NOT_AVAILABLE)
    case -30 => Some(CL_INVALID_VALUE)
    case -31 => Some(CL_INVALID_DEVICE_TYPE)
    case -32 => Some(CL_INVALID_PLATFORM)
    case -33 => Some(CL_INVALID_DEVICE)
    case -34 => Some(CL_INVALID_CONTEXT)
    case -35 => Some(CL_INVALID_QUEUE_PROPERTIES)
    case -36 => Some(CL_INVALID_COMMAND_QUEUE)
    case -37 => Some(CL_INVALID_HOST_PTR)
    case -38 => Some(CL_INVALID_MEM_OBJECT)
    case -39 => Some(CL_INVALID_IMAGE_FORMAT_DESCRIPTOR)
    case -40 => Some(CL_INVALID_IMAGE_SIZE)
    case -41 => Some(CL_INVALID_SAMPLER)
    case -42 => Some(CL_INVALID_BINARY)
    case -43 => Some(CL_INVALID_BUILD_OPTIONS)
    case -44 => Some(CL_INVALID_PROGRAM)
    case -45 => Some(CL_INVALID_PROGRAM_EXECUTABLE)
    case -46 => Some(CL_INVALID_KERNEL_NAME)
    case -47 => Some(CL_INVALID_KERNEL_DEFINITION)
    case -48 => Some(CL_INVALID_KERNEL)
    case -49 => Some(CL_INVALID_ARG_INDEX)
    case -50 => Some(CL_INVALID_ARG_VALUE)
    case -51 => Some(CL_INVALID_ARG_SIZE)
    case -52 => Some(CL_INVALID_KERNEL_ARGS)
    case -53 => Some(CL_INVALID_WORK_DIMENSION)
    case -54 => Some(CL_INVALID_WORK_GROUP_SIZE)
    case -55 => Some(CL_INVALID_WORK_ITEM_SIZE)
    case -56 => Some(CL_INVALID_GLOBAL_OFFSET)
    case -57 => Some(CL_INVALID_EVENT_WAIT_LIST)
    case -58 => Some(CL_INVALID_EVENT)
    case -59 => Some(CL_INVALID_OPERATION)
    case -60 => Some(CL_INVALID_GL_OBJECT)
    case -61 => Some(CL_INVALID_BUFFER_SIZE)
    case -62 => Some(CL_INVALID_MIP_LEVEL)
    case -63 => Some(CL_INVALID_GLOBAL_WORK_SIZE)
    case -64 => Some(CL_INVALID_PROPERTY)
    case -65 => Some(CL_INVALID_IMAGE_DESCRIPTOR)
    case -66 => Some(CL_INVALID_COMPILER_OPTIONS)
    case -67 => Some(CL_INVALID_LINKER_OPTIONS)
    case -68 => Some(CL_INVALID_DEVICE_PARTITION_COUNT)
    case -1000 => Some(CL_INVALID_GL_SHAREGROUP_REFERENCE_KHR)
    case -1001 => Some(CL_PLATFORM_NOT_FOUND_KHR)
    case -1002 => Some(CL_INVALID_D3D10_DEVICE_KHR)
    case -1003 => Some(CL_INVALID_D3D10_RESOURCE_KHR)
    case -1004 => Some(CL_D3D10_RESOURCE_ALREADY_ACQUIRED_KHR)
    case -1005 => Some(CL_D3D10_RESOURCE_NOT_ACQUIRED_KHR)
    case _ => None
  }

  /**
   * The text the renderer shows for a status code: the live build log for
   * CL_BUILD_PROGRAM_FAILURE (-11), the code's name, or a message quoting
   * the number of any code it does not know.
   */
  function ErrorString(code: ClInt, buildLog: string): (r: string)
    ensures code == ClBuildProgramFailure ==> r == buildLog
    ensures IsNamedCode(code) ==> Some(r) == ErrorName(code)
    ensures !IsNamedCode(code) && code != ClBuildProgramFailure ==> r == UnknownError(code)
  {
    if code == ClBuildProgramFailure then buildLog
    else match ErrorName(code)
      case Some(name) => name
      case None => UnknownError(code)
  }

  /** The code a status name stands for, looked up among the names of its length. */
  function CodeOfName(name: string): Option<int> {
    match |name|
    case 10 => if name == CL_SUCCESS then Some(0) else None
    case 14 => if name == CL_MAP_FAILURE then Some(-12) else None
    case 16 => if name == CL_INVALID_VALUE then Some(-30) else if name == CL_INVALID_EVENT then Some(-58) else None
    case 17 => if name == CL_INVALID_DEVICE then Some(-33) else if name == CL_INVALID_BINARY then Some(-42) else if name == CL_INVALID_KERNEL then Some(-48) else None
    case 18 => if name == CL_INVALID_CONTEXT then Some(-34) else if name == CL_INVALID_SAMPLER then Some(-41) else if name == CL_INVALID_PROGRAM then Some(-44) else None
    case 19 => if name == CL_DEVICE_NOT_FOUND then Some(-1) else if name == CL_OUT_OF_RESOURCES then Some(-5) else if name == CL_MEM_COPY_OVERLAP then Some(-8) else if name == CL_INVALID_PLATFORM then Some(-32) else if name == CL_INVALID_HOST_PTR then Some(-37) else if name == CL_INVALID_ARG_SIZE then Some(-51) else if name == CL_INVALID_PROPERTY then Some(-64) else None
    case 20 => if name == CL_INVALID_ARG_INDEX then Some(-49) else if name == CL_INVALID_ARG_VALUE then Some(-50) else if name == CL_INVALID_OPERATION then Some(-59) else if name == CL_INVALID_GL_OBJECT then Some(-60) else if name == CL_INVALID_MIP_LEVEL then Some(-62) else None
    case 21 => if name == CL_OUT_OF_HOST_MEMORY then Some(-6) else if name == CL_INVALID_MEM_OBJECT then Some(-38) else if name == CL_INVALID_IMAGE_SIZE then Some(-40) else None
    case 22 => if name == CL_INVALID_DEVICE_TYPE then Some(-31) else if name == CL_INVALID_KERNEL_NAME then Some(-46) else if name == CL_INVALID_KERNEL_ARGS then Some(-52) else if name == CL_INVALID_BUFFER_SIZE then Some(-61) else None
    case 23 => if name == CL_DEVICE_NOT_AVAILABLE then Some(-2) else if name == CL_LINKER_NOT_AVAILABLE then Some(-16) else if name == CL_LINK_PROGRAM_FAILURE then Some(-17) else None
    case 24 => if name == CL_IMAGE_FORMAT_MISMATCH then Some(-9) else if name == CL_INVALID_COMMAND_QUEUE then Some(-36) else if name == CL_INVALID_BUILD_OPTIONS then Some(-43) else if name == CL_INVALID_GLOBAL_OFFSET then Some(-56) else None
    case 25 => if name == CL_COMPILER_NOT_AVAILABLE then Some(-3) else if name == CL_INVALID_WORK_DIMENSION then Some(-53) else if name == CL_INVALID_WORK_ITEM_SIZE then Some(-55) else if name == CL_INVALID_LINKER_OPTIONS then Some(-67) else if name == CL_PLATFORM_NOT_FOUND_KHR then Some(-1001) else None
    case 26 => if name == CL_COMPILE_PROGRAM_FAILURE then Some(-15) else if name == CL_DEVICE_PARTITION_FAILED then Some(-18) else if name == CL_INVALID_WORK_GROUP_SIZE then Some(-54) else if name == CL_INVALID_EVENT_WAIT_LIST then Some(-57) else None
    case 27 => if name == CL_INVALID_QUEUE_PROPERTIES then Some(-35) else if name == CL_INVALID_GLOBAL_WORK_SIZE then Some(-63) else if name == CL_INVALID_IMAGE_DESCRIPTOR then Some(-65) else if name == CL_INVALID_COMPILER_OPTIONS then Some(-66) else if name == CL_INVALID_D3D10_DEVICE_KHR then Some(-1002) else None
    case 28 => if name == CL_INVALID_KERNEL_DEFINITION then Some(-47) else None
    case 29 => if name == CL_IMAGE_FORMAT_NOT_SUPPORTED then Some(-10) else if name == CL_INVALID_PROGRAM_EXECUTABLE then Some(-45) else if name == CL_INVALID_D3D10_RESOURCE_KHR then Some(-1003) else None
    case 31 => if name == CL_PROFILING_INFO_NOT_AVAILABLE then Some(-7) else if name == CL_MISALIGNED_SUB_BUFFER_OFFSET then Some(-13) else None
    case 32 => if name == CL_MEM_OBJECT_ALLOCATION_FAILURE then Some(-4) else if name == CL_KERNEL_ARG_INFO_NOT_AVAILABLE then Some(-19) else None
    case 33 => if name == CL_INVALID_DEVICE_PARTITION_COUNT then Some(-68) else None
    case 34 => if name == CL_INVALID_IMAGE_FORMAT_DESCRIPTOR then Some(-39) else if name == CL_D3D10_RESOURCE_NOT_ACQUIRED_KHR then Some(-1005) else None
    case 38 => if name == CL_INVALID_GL_SHAREGROUP_REFERENCE_KHR then Some(-1000) else if name == CL_D3D10_RESOURCE_ALREADY_ACQUIRED_KHR then Some(-1004) else None
    case 44 => if name == CL_EXEC_STATUS_ERROR_FOR_EVENTS_IN_WAIT_LIST then Some(-14) else None
    case _ => None
  }

  /** Success is reported as "CL_SUCCESS". */
  lemma ErrorStringSuccess(buildLog: string)
    ensures ErrorString(ClSuccess, buildLog) == "CL_SUCCESS"
  {
  }

  /** The names of codes 0 to -4 lead back to their codes. */
  lemma RoundTrip0To4(code: int)
    requires -4 <= code <= 0
    ensures CodeOfName(ErrorName(code).value) == Some(code)
  {
  }

  /** The names of codes -5 to -9 lead back to their codes. */
  lemma RoundTrip5To9(code: int)
    requires -9 <= code <= -5
    ensures CodeOfName(ErrorName(code).value) == Some(code)
  {
  }

  /** The names of codes -10 to -14 lead back to their codes. */
  lemma RoundTrip10To14(code: int)
    requires IsNamedCode(code) && -14 <= code <= -10
    ensures CodeOfName(ErrorName(code).value) == Some(code)
  {
  }

  /** The names of codes -15 to -19 lead back to their codes. */
  lemma RoundTrip15To19(code: int)
    requires -19 <= code <= -15
    ensures CodeOfName(ErrorName(code).value) == Some(code)
  {
  }

  /** The names of codes -30 to -34 lead back to their codes. */
  lemma RoundTrip30To34(code: int)
    requires -34 <= code <= -30
    ensures CodeOfName(ErrorName(code).value) == Some(code)
  {
  }

  /** The names of codes -35 to -39 lead back to their codes. */
  lemma RoundTrip35To39(code: int)
    requires -39 <= code <= -35
    ensures CodeOfName(ErrorName(code).value) == Some(code)
  {
  }

  /** The names of codes -40 to -44 lead back to their codes. */
  lemma RoundTrip40To44(code: int)
    requires -44 <= code <= -40
    ensures CodeOfName(ErrorName(code).value) == Some(code)
  {
  }

  /** The names of codes -45 to -49 lead back to their codes. */
  lemma RoundTrip45To49(code: int)
    requires -49 <= code <= -45
    ensures CodeOfName(ErrorName(code).value) == Some(code)
  {
  }

  /** The names of codes -50 to -54 lead back to their codes. */
  lemma RoundTrip50To54(code: int)
    requires -54 <= code <= -50
    ensures CodeOfName(ErrorName(code).value) == Some(code)
  {
  }

  /** The names of codes -55 to -59 lead back to their codes. */
  lemma RoundTrip55To59(code: int)
    requires -59 <= code <= -55
    ensures CodeOfName(ErrorName(code).value) == Some(code)
  {
  }

  /** The names of codes -60 to -64 lead back to their codes. */
  lemma RoundTrip60To64(code: int)
    requires -64 <= code <= -60
    ensures CodeOfName(ErrorName(code).value) == Some(code)
  {
  }

  /** The names of codes -65 to -68 lead back to their codes. */
  lemma RoundTrip65To68(code: int)
    requires -68 <= code <= -65
    ensures CodeOfName(ErrorName(code).value) == Some(code)
  {
  }

  /** The names of codes -1000 to -1005 lead back to their codes. */
  lemma RoundTrip1000To1005(code: int)
    requires -1005 <= code <= -1000
    ensures CodeOfName(ErrorName(code).value) == Some(code)
  {
  }

  /** Every name leads back to its code. */
  lemma NamesRoundTrip(code: int)
    requires IsNamedCode(code)
    ensures CodeOfName(ErrorName(code).value) == Some(code)
  {
    if -4 <= code {
      RoundTrip0To4(code);
    } else if -9 <= code {
      RoundTrip5To9(code);
    } else if -14 <= code {
      RoundTrip10To14(code);
    } else if -19 <= code {
      RoundTrip15To19(code);
    } else if -34 <= code {
      RoundTrip30To34(code);
    } else if -39 <= code {
      RoundTrip35To39(code);
    } else if -44 <= code {
      RoundTrip40To44(code);
    } else if -49 <= code {
      RoundTrip45To49(code);
    } else if -54 <= code {
      RoundTrip50To54(code);
    } else if -59 <= code {
      RoundTrip55To59(code);
    } else if -64 <= code {
      RoundTrip60To64(code);
    } else if -68 <= code {
      RoundTrip65To68(code);
    } else {
      RoundTrip1000To1005(code);
    }
  }

  /** A name ends in a capital letter, never in a quotation mark. */
  predicate EndsInCapital(name: string) {
    |name| > 0 && 'A' <= name[|name| - 1] <= 'Z'
  }

  /** The names of the codes 0 to -49 end in a capital letter. */
  lemma EndInCapital0To49(code: int)
    requires IsNamedCode(code) && -49 <= code <= 0
    ensures EndsInCapital(ErrorName(code).value)
  {
  }

  /** The names of the codes -50 to -1005 end in a capital letter. */
  lemma EndInCapital50To1005(code: int)
    requires IsNamedCode(code) && code <= -50
    ensures EndsInCapital(ErrorName(code).value)
  {
  }

  /** Every name ends in a capital letter. */
  lemma NamesEndInCapital(code: int)
    requires IsNamedCode(code)
    ensures EndsInCapital(ErrorName(code).value)
  {
    if -49 <= code {
      EndInCapital0To49(code);
    } else {
      EndInCapital50To1005(code);
    }
  }

  /** A name of at most 18 characters that the lookup accepts belongs to the code it returns. */
  lemma CodeOfNameSoundUpTo18(name: string)
    requires CodeOfName(name).Some? && |name| <= 18
    ensures IsNamedCode(CodeOfName(name).value)
    ensures ErrorName(CodeOfName(name).value) == Some(name)
  {
  }

  /** A name of 19 characters that the lookup accepts belongs to the code it returns. */
  lemma CodeOfNameSoundLength19(name: string)
    requires CodeOfName(name).Some? && |name| == 19
    ensures IsNamedCode(CodeOfName(name).value)
    ensures ErrorName(CodeOfName(name).value) == Some(name)
  {
  }

  /** A name of 20 to 21 characters that the lookup accepts belongs to the code it returns. */
  lemma CodeOfNameSoundLength20To21(name: string)
    requires CodeOfName(name).Some? && 20 <= |name| <= 21
    ensures IsNamedCode(CodeOfName(name).value)
    ensures ErrorName(CodeOfName(name).value) == Some(name)
  {
  }

  /** A name of 22 to 23 characters that the lookup accepts belongs to the code it returns. */
  lemma CodeOfNameSoundLength22To23(name: string)
    requires CodeOfName(name).Some? && 22 <= |name| <= 23
    ensures IsNamedCode(CodeOfName(name).value)
    ensures ErrorName(CodeOfName(name).value) == Some(name)
  {
  }

  /** A name of 24 characters that the lookup accepts belongs to the code it returns. */
  lemma CodeOfNameSoundLength24(name: string)
    requires CodeOfName(name).Some? && |name| == 24
    ensures IsNamedCode(CodeOfName(name).value)
    ensures ErrorName(CodeOfName(name).value) == Some(name)
  {
  }

  /** A name of 25 characters that the lookup accepts belongs to the code it returns. */
  lemma CodeOfNameSoundLength25(name: string)
    requires CodeOfName(name).Some? && |name| == 25
    ensures IsNamedCode(CodeOfName(name).value)
    ensures ErrorName(CodeOfName(name).value) == Some(name)
  {
  }

  /** A name of 26 characters that the lookup accepts belongs to the code it returns. */
  lemma CodeOfNameSoundLength26(name: string)
    requires CodeOfName(name).Some? && |name| == 26
    ensures IsNamedCode(CodeOfName(name).value)
    ensures ErrorName(CodeOfName(name).value) == Some(name)
  {
  }

  /** A name of 27 characters that the lookup accepts belongs to the code it returns. */
  lemma CodeOfNameSoundLength27(name: string)
    requires CodeOfName(name).Some? && |name| == 27
    ensures IsNamedCode(CodeOfName(name).value)
    ensures ErrorName(CodeOfName(name).value) == Some(name)
  {
  }

  /** A name of 28 to 29 characters that the lookup accepts belongs to the code it returns. */
  lemma CodeOfNameSoundLength28To29(name: string)
    requires CodeOfName(name).Some? && 28 <= |name| <= 29
    ensures IsNamedCode(CodeOfName(name).value)
    ensures ErrorName(CodeOfName(name).value) == Some(name)
  {
  }

  /** A name of 30 to 33 characters that the lookup accepts belongs to the code it returns. */
  lemma CodeOfNameSoundLength30To33(name: string)
    requires CodeOfName(name).Some? && 30 <= |name| <= 33
    ensures IsNamedCode(CodeOfName(name).value)
    ensures ErrorName(CodeOfName(name).value) == Some(name)
  {
  }

  /** A name of 34 or more characters that the lookup accepts belongs to the code it returns. */
  lemma CodeOfNameSoundFrom34(name: string)
    requires CodeOfName(name).Some? && |name| >= 34
    ensures IsNamedCode(CodeOfName(name).value)
    ensures ErrorName(CodeOfName(name).value) == Some(name)
  {
  }

  /** A name the lookup accepts belongs to exactly the code it returns. */
  lemma CodeOfNameSound(name: string)
    requires CodeOfName(name).Some?
    ensures IsNamedCode(CodeOfName(name).value)
    ensures ErrorName(CodeOfName(name).value) == Some(name)
  {
    if |name| <= 18 {
      CodeOfNameSoundUpTo18(name);
    } else if |name| <= 19 {
      CodeOfNameSoundLength19(name);
    } else if |name| <= 21 {
      CodeOfNameSoundLength20To21(name);
    } else if |name| <= 23 {
      CodeOfNameSoundLength22To23(name);
    } else if |name| <= 24 {
      CodeOfNameSoundLength24(name);
    } else if |name| <= 25 {
      CodeOfNameSoundLength25(name);
    } else if |name| <= 26 {
      CodeOfNameSoundLength26(name);
    } else if |name| <= 27 {
      CodeOfNameSoundLength27(name);
    } else if |name| <= 29 {
      CodeOfNameSoundLength28To29(name);
    } else if |name| <= 33 {
      CodeOfNameSoundLength30To33(name);
    } else {
      CodeOfNameSoundFrom34(name);
    }
  }

  /** No two named codes share a name. */
  lemma NamesDistinct(a: int, b: int)
    requires IsNamedCode(a) && IsNamedCode(b) && a != b
    ensures ErrorName(a) != ErrorName(b)
  {
    NamesRoundTrip(a);
    NamesRoundTrip(b);
  }

  /**
   * A code the table does not know is reported as Unknown OpenCL error "n",
   * and the quoted text reads back as the code itself.
   */
  lemma UnknownCodeQuoted(code: ClInt, buildLog: string)
    requires !IsNamedCode(code) && code != ClBuildProgramFailure
    ensures var r := ErrorString(code, buildLog);
            |r| > |UnknownPrefix| + 1 &&
            r[..|UnknownPrefix|] == UnknownPrefix &&
            r[|r| - 1] == '"' &&
            Strings.Stoi(r[|UnknownPrefix|..|r| - 1]) == Success(code as int)
  {
    var number := Strings.IntToString(code);
    var r := ErrorString(code, buildLog);
    assert r == UnknownPrefix + number + "\"";
    assert r[|UnknownPrefix|..|r| - 1] == number;
    Strings.StoiIntToString(code);
  }

  /** A message for an unknown code is never mistaken for a status name. */
  lemma UnknownIsNoName(named: int, code: int)
    requires IsNamedCode(named)
    ensures ErrorName(named) != Some(UnknownError(code))
  {
    NamesEndInCapital(named);
    var r := UnknownError(code);
    assert r[|r| - 1] == '"';
  }

  /**
   * Apart from the build log, the message determines the code: different
   * codes never produce the same text, named or not.
   */
  lemma ErrorStringInjective(a: ClInt, b: ClInt, buildLog: string)
    requires a != ClBuildProgramFailure && b != ClBuildProgramFailure
    requires ErrorString(a, buildLog) == ErrorString(b, buildLog)
    ensures a == b
  {
    var r := ErrorString(a, buildLog);
    if IsNamedCode(a) {
      NamesRoundTrip(a);
      if IsNamedCode(b) {
        NamesRoundTrip(b);
      } else {
        UnknownIsNoName(a, b);
      }
    } else if IsNamedCode(b) {
      UnknownIsNoName(b, a);
    } else {
      UnknownCodeQuoted(a, buildLog);
      UnknownCodeQuoted(b, buildLog);
    }
  }

  // ---------------------------------------------------------------------
  // Construction
  // ---------------------------------------------------------------------

  /** A device handle, opaque to the model. */
  type Device = nat

  /**
   * The outcome of asking a platform for its GPU devices: success delivers
   * the devices found, CL_DEVICE_NOT_FOUND is tolerated and delivers none,
   * any other status is fatal.
   */
  function GetDevices(status: ClInt, found: seq<Device>): (r: Result<seq<Device>, string>)
    ensures r.Success? <==> status == ClSuccess || status == ClDeviceNotFound
    ensures status == ClDeviceNotFound ==> r == Success([])
    ensures status == ClSuccess ==> r == Success(found)
  {
    if status == ClSuccess then Success(found)
    else if status == ClDeviceNotFound then Success([])
    else Failure("CLProgram::getDevices.")
  }

  /** What the device layer answers to each call the constructor makes, in order. */
  datatype DeviceAnswers = DeviceAnswers(
    platformsStatus: ClInt,
    platformCount: nat,
    devicesStatus: ClInt,
    devicesFound: seq<Device>,
    contextStatus: ClInt,
    queueStatus: ClInt,
    programStatus: ClInt,
    buildStatus: ClInt,
    buildLog: string,
    kernelStatus: ClInt,
    directionBufferStatus: ClInt,
    colorBufferStatus: ClInt)

  /** A constructed renderer, minus its device handles. */
  datatype Program = Program(
    width: int,
    height: int,
    device: Device,
    kernelName: string,
    directionBufferBytes: nat,
    colorBufferBytes: nat)
  {
    /** The buffers are sized for the configured frame. */
    predicate Valid() {
      width > 0 && height > 0 &&
      directionBufferBytes == SizeOfClFloat3 &&
      colorBufferBytes == SizeOfClInt * width * height
    }
  }

  const TestKernel: string := "test"

  /** The size in bytes of the colour buffer: one cl_int per pixel. */
  function ColorBufferBytes(width: int, height: int): (r: int)
    ensures r % SizeOfClInt == 0 && r / SizeOfClInt == width * height
    ensures width > 0 && height > 0 ==> r >= SizeOfClInt
  {
    var pixels := width * height;
    assert width > 0 && height > 0 ==> pixels >= 1;
    SizeOfClInt * pixels
  }

  /**
   * The constructor's checks, in the order it makes them: the first call
   * that fails ends construction with that step's message; the build step's
   * message carries the status text, which for a build failure is the
   * build log.
   */
  function Create(width: int, height: int, answers: DeviceAnswers): (r: Result<Program, string>)
    requires width > 0 && height > 0
    ensures r.Success? ==> r.value.Valid() && r.value.width == width && r.value.height == height
    ensures r.Success? ==> |answers.devicesFound| > 0 && r.value.device == answers.devicesFound[0]
    ensures r.Success? ==> r.value.kernelName == TestKernel
  {
    if answers.platformsStatus != ClSuccess then Failure("CLProgram::getPlatforms.")
    else if answers.platformCount == 0 then Failure("No OpenCL platform found.")
    else
      match GetDevices(answers.devicesStatus, answers.devicesFound)
      case Failure(message) => Failure(message)
      case Success(devices) =>
        if |devices| == 0 then Failure("No OpenCL device found.")
        else if answers.contextStatus != ClSuccess then Failure("cl::Context.")
        else if answers.queueStatus != ClSuccess then Failure("cl::CommandQueue.")
        else if answers.programStatus != ClSuccess then Failure("cl::Program.")
        else if answers.buildStatus != ClSuccess then
          Failure("cl::Program::build (" + ErrorString(answers.buildStatus, answers.buildLog) + ").")
        else if answers.kernelStatus != ClSuccess then Failure("cl::Kernel.")
        else if answers.directionBufferStatus != ClSuccess then Failure("cl::Buffer directionBuffer.")
        else if answers.colorBufferStatus != ClSuccess then Failure("cl::Buffer colorBuffer.")
        else Success(Program(width, height, devices[0], TestKernel,
                             SizeOfClFloat3, ColorBufferBytes(width, height)))
  }

  /** Every device call answered successfully, with at least one platform and one GPU device. */
  predicate AllSucceed(answers: DeviceAnswers) {
    answers.platformsStatus == ClSuccess && answers.platformCount > 0 &&
    answers.devicesStatus == ClSuccess && |answers.devicesFound| > 0 &&
    answers.contextStatus == ClSuccess && answers.queueStatus == ClSuccess &&
    answers.programStatus == ClSuccess && answers.buildStatus == ClSuccess &&
    answers.kernelStatus == ClSuccess && answers.directionBufferStatus == ClSuccess &&
    answers.colorBufferStatus == ClSuccess
  }

  /** Construction succeeds exactly when every device call succeeds. */
  lemma CreateSucceedsIff(width: int, height: int, answers: DeviceAnswers)
    requires width > 0 && height > 0
    ensures Create(width, height, answers).Success? <==> AllSucceed(answers)
  {
  }

  /**
   * A platform without GPU devices is tolerated by the device query but
   * then rejected by the constructor.
   */
  lemma NoGpuDeviceRejected(width: int, height: int, answers: DeviceAnswers)
    requires width > 0 && height > 0
    requires answers.platformsStatus == ClSuccess && answers.platformCount > 0
    requires answers.devicesStatus == ClDeviceNotFound
    ensures GetDevices(answers.devicesStatus, answers.devicesFound) == Success([])
    ensures Create(width, height, answers) == Failure("No OpenCL device found.")
  {
  }

  /** A failed build reports the compiler's build log inside its message. */
  lemma BuildFailureShowsLog(width: int, height: int, answers: DeviceAnswers)
    requires width > 0 && height > 0
    requires answers.platformsStatus == ClSuccess && answers.platformCount > 0
    requires answers.devicesStatus == ClSuccess && |answers.devicesFound| > 0
    requires answers.contextStatus == ClSuccess && answers.queueStatus == ClSuccess
    requires answers.programStatus == ClSuccess
    requires answers.buildStatus == ClBuildProgramFailure
    ensures Create(width, height, answers) == Failure("cl::Program::build (" + answers.buildLog + ").")
  {
  }

  // ---------------------------------------------------------------------
  // Rendering a frame
  // ---------------------------------------------------------------------

  /** The number of bytes read back from the colour buffer each frame. */
  function ReadBackBytes(p: Program): (r: int)
    ensures r == ColorBufferBytes(p.width, p.height)
  {
    SizeOfClInt * p.width * p.height
  }

  /**
   * The read-back covers the whole colour buffer and exactly fills a
   * destination of the configured size, four bytes per pixel.
   */
  lemma ReadBackFillsDestination(p: Program, dst: Surfaces.Surface)
    requires p.Valid() && dst.Valid()
    requires dst.width == p.width && dst.height == p.height
    ensures ReadBackBytes(p) == p.colorBufferBytes
    ensures ReadBackBytes(p) == SizeOfClInt * dst.pixels.Length
  {
  }

  /**
   * Runs the kernel over the width-by-height grid, waits for the queue and
   * copies the colour buffer into the destination's pixels. The kernel's
   * output and the status of each device call are inputs. A failed call
   * ends the frame with that step's message and leaves the destination as
   * it was.
   */
  method Render(p: Program, dst: Surfaces.Surface, kernelOutput: seq<bv32>,
                enqueueStatus: ClInt, finishStatus: ClInt, readStatus: ClInt)
    returns (o: Outcome<string>)
    requires p.Valid() && dst.Valid()
    requires dst.width == p.width && dst.height == p.height
    requires |kernelOutput| * SizeOfClInt == p.colorBufferBytes
    modifies dst.pixels
    ensures o.Pass? <==> enqueueStatus == ClSuccess && finishStatus == ClSuccess && readStatus == ClSuccess
    ensures enqueueStatus != ClSuccess ==> o == Fail("cl::CommandQueue::enqueueNDRangeKernel.")
    ensures enqueueStatus == ClSuccess && finishStatus != ClSuccess ==>
      o == Fail("cl::CommandQueue::finish.")
    ensures enqueueStatus == ClSuccess && finishStatus == ClSuccess && readStatus != ClSuccess ==>
      o == Fail("cl::CommandQueue::enqueueReadBuffer.")
    ensures o.Pass? ==> dst.pixels[..] == kernelOutput
    ensures o.Fail? ==> dst.pixels[..] == old(dst.pixels[..])
  {
    if enqueueStatus != ClSuccess {
      return Fail("cl::CommandQueue::enqueueNDRangeKernel.");
    }
    if finishStatus != ClSuccess {
      return Fail("cl::CommandQueue::finish.");
    }
    if readStatus != ClSuccess {
      return Fail("cl::CommandQueue::enqueueReadBuffer.");
    }
    ReadBackFillsDestination(p, dst);
    forall i | 0 <= i < dst.pixels.Length {
      dst.pixels[i] := kernelOutput[i];
    }
    o := Pass;
  }
}
