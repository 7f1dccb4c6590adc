/**
 The process-wide registration state of the viper configuration library
 that the loader sets up before reading: the directories to search, the
 configuration name and type, and whether environment variables override
 file values. Reading and decoding themselves are not modelled; their
 outcomes are inputs of the loader.
 */
module Viper {

  class Registry {
    var configPaths: seq<string>
    var configName: string
    var configType: string
    var automaticEnv: bool

    /** `viper.New`: no search directories, the default name "config", no type, no override. */
    constructor ()
      ensures configPaths == [] && configName == "config" && configType == "" && !automaticEnv
    {
      configPaths, configName, configType, automaticEnv := [], "config", "", false;
    }

    /** `viper.AddConfigPath`: one more directory to search, each kept once; an empty one is ignored. */
    method AddConfigPath(dir: string)
      modifies this
      ensures configPaths == if dir == "" || dir in old(configPaths) then old(configPaths)
                             else old(configPaths) + [dir]
      ensures configName == old(configName) && configType == old(configType)
      ensures automaticEnv == old(automaticEnv)
    {
      if dir != "" && dir !in configPaths {
        configPaths := configPaths + [dir];
      }
    }

    /** `viper.SetConfigName`: the file name to look for, without extension; an empty name is ignored. */
    method SetConfigName(name: string)
      modifies this
      ensures configName == if name == "" then old(configName) else name
      ensures configPaths == old(configPaths) && configType == old(configType)
      ensures automaticEnv == old(automaticEnv)
    {
      if name != "" {
        configName := name;
      }
    }

    /** `viper.SetConfigType`: the file format to parse; an empty type is ignored. */
    method SetConfigType(kind: string)
      modifies this
      ensures configType == if kind == "" then old(configType) else kind
      ensures configPaths == old(configPaths) && configName == old(configName)
      ensures automaticEnv == old(automaticEnv)
    {
      if kind != "" {
        configType := kind;
      }
    }

    /** `viper.AutomaticEnv`: let process environment variables override file values. */
    method AutomaticEnv()
      modifies this
      ensures automaticEnv
      ensures configPaths == old(configPaths) && configName == old(configName)
      ensures configType == old(configType)
    {
      automaticEnv := true;
    }
  }
}
