/**
 * The monitor factory (monitors/monitor_factory.py): a registry from
 * configuration classes to monitor classes, filled with the six built-in
 * pairs, and the lookup that turns a configuration into a monitor.
 */
module MonitorFactory {
  import opened Wrappers
  import opened Config

  /** The class of a configuration object, as `type(config)` reports it. */
  datatype ConfigType =
    | KeywordConfigType
    | FileConfigType
    | ButtonConfigType
    | AllMessagesConfigType
    | AIMonitorConfigType
    | ImageButtonConfigType
    | OtherConfigType(name: string)

  /** A monitor class: one of the six built-in monitors, or one registered later. */
  datatype MonitorClass =
    | KeywordMonitorClass
    | FileMonitorClass
    | ButtonMonitorClass
    | AllMessagesMonitorClass
    | AIMonitorClass
    | ImageButtonMonitorClass
    | OtherMonitorClass(name: string)

  /**
   * A configuration handed to the factory: one of the six known dataclasses,
   * or an object of some other class (a subclass, say), known only by name.
   */
  datatype ConfigObject = Known(config: TypedConfig) | Foreign(className: string)

  /** A constructed monitor: its class and the configuration it was built from. */
  datatype Monitor = Monitor(monitorClass: MonitorClass, config: ConfigObject)

  /** `type(config)`: the exact class, never a base class. */
  function TypeOf(c: ConfigObject): (t: ConfigType)
    ensures c.Foreign? <==> t.OtherConfigType?
  {
    match c
    case Foreign(n) => OtherConfigType(n)
    case Known(KeywordCfg(_)) => KeywordConfigType
    case Known(FileCfg(_)) => FileConfigType
    case Known(ButtonCfg(_)) => ButtonConfigType
    case Known(AllMessagesCfg(_)) => AllMessagesConfigType
    case Known(ImageButtonCfg(_)) => ImageButtonConfigType
    case Known(AIMonitorCfg(_)) => AIMonitorConfigType
  }

  /** `_register_default_monitors`: each built-in configuration class to its monitor. */
  const DefaultRegistry: map<ConfigType, MonitorClass> := map[
    KeywordConfigType := KeywordMonitorClass,
    AIMonitorConfigType := AIMonitorClass,
    FileConfigType := FileMonitorClass,
    ButtonConfigType := ButtonMonitorClass,
    AllMessagesConfigType := AllMessagesMonitorClass,
    ImageButtonConfigType := ImageButtonMonitorClass]

  /** The monitor class that serves each kind of known configuration. */
  function BuiltInMonitor(c: TypedConfig): MonitorClass
  {
    match c
    case KeywordCfg(_) => KeywordMonitorClass
    case FileCfg(_) => FileMonitorClass
    case ButtonCfg(_) => ButtonMonitorClass
    case AllMessagesCfg(_) => AllMessagesMonitorClass
    case ImageButtonCfg(_) => ImageButtonMonitorClass
    case AIMonitorCfg(_) => AIMonitorClass
  }

  /**
   * What `create_monitor` returns for a registry: None for an unregistered
   * class or when the monitor's constructor raises, else the monitor.
   */
  function Created(registry: map<ConfigType, MonitorClass>, config: ConfigObject, constructorSucceeds: bool): Option<Monitor>
  {
    if TypeOf(config) in registry && constructorSucceeds
    then Some(Monitor(registry[TypeOf(config)], config))
    else None
  }

  /** The default registry knows exactly the six built-in configuration classes. */
  lemma DefaultRegistryDomain(t: ConfigType)
    ensures t in DefaultRegistry <==> !t.OtherConfigType?
  {
  }

  /**
   * With the default registry, every known configuration gets its built-in
   * monitor (unless the constructor raises), and no foreign one gets any.
   */
  lemma DefaultCreatesBuiltIn(config: ConfigObject, constructorSucceeds: bool)
    ensures config.Known? && constructorSucceeds ==>
      Created(DefaultRegistry, config, constructorSucceeds) == Some(Monitor(BuiltInMonitor(config.config), config))
    ensures config.Foreign? || !constructorSucceeds ==> Created(DefaultRegistry, config, constructorSucceeds).None?
  {
  }

  /** Registering a class for one configuration type changes the outcome for that type only. */
  lemma RegisterChangesOneType(registry: map<ConfigType, MonitorClass>, t: ConfigType, m: MonitorClass,
                               config: ConfigObject, ok: bool)
    ensures TypeOf(config) == t && ok ==> Created(registry[t := m], config, ok) == Some(Monitor(m, config))
    ensures TypeOf(config) != t ==> Created(registry[t := m], config, ok) == Created(registry, config, ok)
  {
  }

  class MonitorFactory {
    /** `_monitor_registry` */
    var registry: map<ConfigType, MonitorClass>

    /** `__init__`: an empty registry filled with the defaults. */
    constructor ()
      ensures registry == DefaultRegistry
    {
      registry := DefaultRegistry;
    }

    /** `register_monitor`: add or overwrite the mapping for one configuration type. */
    method RegisterMonitor(configType: ConfigType, monitorClass: MonitorClass)
      modifies this
      ensures registry == old(registry)[configType := monitorClass]
      ensures configType in registry && registry[configType] == monitorClass
      ensures forall t :: t != configType ==> (t in registry <==> t in old(registry))
    {
      registry := registry[configType := monitorClass];
    }

    /**
     * `create_monitor`: look up the exact class of `config`; None when it is
     * not registered or when the constructor raises.
     */
    method CreateMonitor(config: ConfigObject, constructorSucceeds: bool) returns (r: Option<Monitor>)
      ensures r == Created(registry, config, constructorSucceeds)
      ensures r.Some? ==> r.value.config == config && TypeOf(config) in registry
                          && r.value.monitorClass == registry[TypeOf(config)]
      ensures TypeOf(config) !in registry ==> r.None?
    {
      var t := TypeOf(config);
      if t !in registry {
        return None;
      }
      var monitorClass := registry[t];
      if !constructorSucceeds {
        return None;
      }
      r := Some(Monitor(monitorClass, config));
    }
  }
}
