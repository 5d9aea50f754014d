/** The legacy alarm callback: stores the host's configuration, declares the fields it
    asks for, validates them, masks the service key when listing attributes, and hands
    alerts to the legacy client. */
module AlarmCallback {
  import opened Jvm
  import opened LegacyExceptions
  import LegacyClient

  const ServiceKeyField := "service_key"
  const CustomIncidentKeyField := "use_custom_incident_key"
  const IncidentKeyPrefixField := "incident_key_prefix"
  const ClientField := "client"
  const ClientUrlField := "client_url"

  /** The only service key length PagerDuty issues. */
  const ServiceKeyLength := 32

  /** What getAttributes shows instead of the service key. */
  const MaskedValue := "****"

  const CallbackName := "PagerDuty alarm callback"

  const MissingServiceKeyMessage := ServiceKeyField + " is mandatory and must be not be null or empty."
  const ServiceKeyLengthMessage := ServiceKeyField + " must be 32 characters long."
  const ClientUrlSchemeMessage := ClientUrlField + " must be a valid HTTP or HTTPS URL."
  const ClientUrlParseMessage := "Couldn't parse " + ClientUrlField + " correctly."

  /** A value of the host's configuration map. */
  datatype ConfigValue = StringValue(s: string) | BooleanValue(b: bool) | IntegerValue(i: int)

  /** The host's Configuration, built from a map of field names to values. */
  datatype Configuration = Configuration(source: map<string, ConfigValue>)

  /** Configuration.getString: the field's text, or null when it is absent or not a string. */
  function GetString(config: Configuration, key: string): Option<string>
  {
    if key in config.source && config.source[key].StringValue? then Some(config.source[key].s) else None
  }

  /** Configuration.stringIsSet: the field holds a non-empty string. */
  predicate StringIsSet(config: Configuration, key: string)
  {
    GetString(config, key).Some? && |GetString(config, key).value| > 0
  }

  /** Configuration.getBoolean: the field's flag, false when it is absent. */
  function GetBoolean(config: Configuration, key: string): bool
  {
    key in config.source && config.source[key].BooleanValue? && config.source[key].b
  }

  /** What java.net.URI's constructor makes of a string: a syntax error, or a URI whose
      scheme is null for a relative reference. */
  datatype UriParse = SyntaxError | Parsed(scheme: Option<string>)

  /** The scheme comparison is case-sensitive. */
  predicate IsHttpScheme(scheme: Option<string>)
  {
    scheme == Some("http") || scheme == Some("https")
  }

  predicate ServiceKeyValid(config: Configuration)
  {
    StringIsSet(config, ServiceKeyField) && |GetString(config, ServiceKeyField).value| == ServiceKeyLength
  }

  /** The client URL is unset, or it parses with an HTTP or HTTPS scheme. */
  predicate ClientUrlAcceptable(config: Configuration, parseUri: string -> UriParse)
  {
    StringIsSet(config, ClientUrlField) ==>
      var parsed := parseUri(GetString(config, ClientUrlField).value);
      parsed.Parsed? && IsHttpScheme(parsed.scheme)
  }

  /** checkConfiguration: fail fast on a missing key, then a key of the wrong length,
      then a client URL with the wrong scheme or one that does not parse. */
  function ValidateConfiguration(config: Configuration, parseUri: string -> UriParse)
    : (outcome: Outcome<Exception>)
    ensures outcome.Pass? <==> ServiceKeyValid(config) && ClientUrlAcceptable(config, parseUri)
    ensures outcome == Fail(ConfigurationException(MissingServiceKeyMessage))
        <==> !StringIsSet(config, ServiceKeyField)
    ensures outcome == Fail(ConfigurationException(ServiceKeyLengthMessage))
        <==> StringIsSet(config, ServiceKeyField) && !ServiceKeyValid(config)
    ensures outcome == Fail(ConfigurationException(ClientUrlSchemeMessage))
        <==> ServiceKeyValid(config) && StringIsSet(config, ClientUrlField)
             && parseUri(GetString(config, ClientUrlField).value).Parsed?
             && !IsHttpScheme(parseUri(GetString(config, ClientUrlField).value).scheme)
    ensures outcome == Fail(ConfigurationException(ClientUrlParseMessage))
        <==> ServiceKeyValid(config) && StringIsSet(config, ClientUrlField)
             && parseUri(GetString(config, ClientUrlField).value).SyntaxError?
  {
    if !StringIsSet(config, ServiceKeyField) then
      Fail(ConfigurationException(MissingServiceKeyMessage))
    else if |GetString(config, ServiceKeyField).value| != ServiceKeyLength then
      Fail(ConfigurationException(ServiceKeyLengthMessage))
    else if StringIsSet(config, ClientUrlField) then
      match parseUri(GetString(config, ClientUrlField).value)
      case Parsed(scheme) =>
        if !IsHttpScheme(scheme) then Fail(ConfigurationException(ClientUrlSchemeMessage)) else Pass
      case SyntaxError =>
        Fail(ConfigurationException(ClientUrlParseMessage))
    else
      Pass
  }

  /** A key of the wrong length is reported whatever the client URL is, so a short key
      with an ftp URL reports the key. */
  lemma KeyCheckedBeforeUrl(config: Configuration, parseUri: string -> UriParse, other: string -> UriParse)
    requires StringIsSet(config, ServiceKeyField) && !ServiceKeyValid(config)
    ensures ValidateConfiguration(config, parseUri) == ValidateConfiguration(config, other)
    ensures ValidateConfiguration(config, parseUri) == Fail(ConfigurationException(ServiceKeyLengthMessage))
  {
  }

  /** Without a client URL the parser is never consulted. */
  lemma UnsetUrlSkipsParsing(config: Configuration, parseUri: string -> UriParse, other: string -> UriParse)
    requires !StringIsSet(config, ClientUrlField)
    ensures ValidateConfiguration(config, parseUri) == ValidateConfiguration(config, other)
  {
  }

  /** The configuration of the callback's tests: a 32-character key and an http URL pass;
      no key, a key that is "too short", and "too short" with an ftp URL all fail as stated. */
  lemma ValidationExamples(parseUri: string -> UriParse)
    requires parseUri("http://www.graylog.org") == Parsed(Some("http"))
    ensures ValidateConfiguration(Configuration(map[
      ServiceKeyField := StringValue("TEST_service_keyTEST_service_key"),
      CustomIncidentKeyField := BooleanValue(true),
      IncidentKeyPrefixField := StringValue("Prefix/"),
      ClientField := StringValue("TEST_Client"),
      ClientUrlField := StringValue("http://www.graylog.org")]), parseUri) == Pass
    ensures ValidateConfiguration(Configuration(map[]), parseUri)
         == Fail(ConfigurationException(MissingServiceKeyMessage))
    ensures ValidateConfiguration(Configuration(map[ServiceKeyField := StringValue("too short")]), parseUri)
         == Fail(ConfigurationException(ServiceKeyLengthMessage))
    ensures ValidateConfiguration(Configuration(map[
      ServiceKeyField := StringValue("too short"),
      ClientUrlField := StringValue("ftp://example.com")]), parseUri)
         == Fail(ConfigurationException(ServiceKeyLengthMessage))
  {
  }

  /** `v` is what the configuration holds under `key`: null exactly when the entry is absent
      or not a string, and otherwise that very string. */
  predicate HoldsString(config: Configuration, key: string, v: Option<string>)
  {
    && (v.Some? <==> key in config.source && config.source[key].StringValue?)
    && (v.Some? ==> config.source[key] == StringValue(v.value))
  }

  /** The client that call builds from the stored configuration: each string field is the
      entry under its own name, and custom incident keys are on exactly when that entry is
      the flag true. */
  function ClientFromConfiguration(config: Configuration): (client: LegacyClient.PagerDutyClient)
    ensures HoldsString(config, ServiceKeyField, client.serviceKey)
    ensures HoldsString(config, IncidentKeyPrefixField, client.incidentKeyPrefix)
    ensures HoldsString(config, ClientField, client.clientName)
    ensures HoldsString(config, ClientUrlField, client.clientUrl)
    ensures client.customIncidentKey
        <==> CustomIncidentKeyField in config.source && config.source[CustomIncidentKeyField] == BooleanValue(true)
  {
    LegacyClient.PagerDutyClient(
      GetString(config, ServiceKeyField),
      GetBoolean(config, CustomIncidentKeyField),
      GetString(config, IncidentKeyPrefixField),
      GetString(config, ClientField),
      GetString(config, ClientUrlField))
  }

  /** A configuration that passes the check gives the client a 32-character service key
      and, when a client URL is set, one with an HTTP or HTTPS scheme. */
  lemma ValidatedClient(config: Configuration, parseUri: string -> UriParse)
    requires ValidateConfiguration(config, parseUri).Pass?
    ensures var client := ClientFromConfiguration(config);
      && client.serviceKey.Some? && |client.serviceKey.value| == ServiceKeyLength
      && (client.clientUrl.Some? && client.clientUrl.value != "" ==>
            parseUri(client.clientUrl.value).Parsed? && IsHttpScheme(parseUri(client.clientUrl.value).scheme))
  {
  }

  /** The check lets a configuration without client_url through, but the client built from
      it throws NullPointerException when it builds the stream link. */
  lemma MissingUrlPassesCheckButFailsTrigger(
    parseUri: string -> UriParse, stream: LegacyClient.Stream, result: LegacyClient.CheckResult,
    response: LegacyClient.PagerDutyResponse)
    ensures var config := Configuration(map[ServiceKeyField := StringValue("01234567890123456789012345678901")]);
      && ValidateConfiguration(config, parseUri) == Pass
      && LegacyClient.Trigger(ClientFromConfiguration(config), stream, result, response)
         == Failure(NullPointerException)
  {
  }

  /** getAttributes: the configuration's entries with the service key's value masked. */
  function MaskAttributes(source: map<string, ConfigValue>): (attributes: map<string, ConfigValue>)
    ensures attributes.Keys == source.Keys
    ensures ServiceKeyField in source ==> attributes[ServiceKeyField] == StringValue(MaskedValue)
    ensures forall key :: key in source && key != ServiceKeyField ==> attributes[key] == source[key]
  {
    map key | key in source :: if key == ServiceKeyField then StringValue(MaskedValue) else source[key]
  }

  /** The attributes do not depend on the service key's value: two configurations that
      differ only there show the same attributes. */
  lemma MaskingHidesServiceKey(a: map<string, ConfigValue>, b: map<string, ConfigValue>)
    requires a.Keys == b.Keys
    requires forall key :: key in a && key != ServiceKeyField ==> a[key] == b[key]
    ensures MaskAttributes(a) == MaskAttributes(b)
  {
  }

  /** Masking the masked attributes changes nothing. */
  lemma MaskingIdempotent(source: map<string, ConfigValue>)
    ensures MaskAttributes(MaskAttributes(source)) == MaskAttributes(source)
  {
  }

  datatype Optionality = Optional | NotOptional

  /** The field kinds the callback declares. */
  datatype ConfigurationField =
    | TextField(name: string, humanName: string, textDefault: string, description: string, optionality: Optionality)
    | BooleanField(name: string, humanName: string, booleanDefault: bool, description: string)

  /** A boolean field is always optional to the host. */
  predicate IsOptional(field: ConfigurationField)
  {
    field.BooleanField? || field.optionality == Optional
  }

  /** The host's ConfigurationRequest: declared fields by name. */
  class ConfigurationRequest {
    var fields: map<string, ConfigurationField>

    constructor ()
      ensures fields == map[]
    {
      fields := map[];
    }

    method AddField(field: ConfigurationField)
      modifies this
      ensures fields == old(fields)[field.name := field]
    {
      fields := fields[field.name := field];
    }
  }

  class PagerDutyAlarmCallback {
    /** Null until initialize is called. */
    var configuration: Option<Configuration>

    constructor ()
      ensures configuration == None
    {
      configuration := None;
    }

    method Initialize(config: Configuration)
      modifies this
      ensures configuration == Some(config)
    {
      configuration := Some(config);
    }

    method CheckConfiguration(parseUri: string -> UriParse) returns (outcome: Outcome<Exception>)
      ensures configuration.None? ==> outcome == Fail(NullPointerException)
      ensures configuration.Some? ==> outcome == ValidateConfiguration(configuration.value, parseUri)
    {
      if configuration.None? {
        return Fail(NullPointerException);
      }
      outcome := ValidateConfiguration(configuration.value, parseUri);
    }

    method GetAttributes() returns (attributes: Result<map<string, ConfigValue>, Exception>)
      ensures configuration.None? ==> attributes == Failure(NullPointerException)
      ensures configuration.Some? ==> attributes == Success(MaskAttributes(configuration.value.source))
    {
      if configuration.None? {
        return Failure(NullPointerException);
      }
      attributes := Success(MaskAttributes(configuration.value.source));
    }

    method GetRequestedConfiguration() returns (request: ConfigurationRequest)
      ensures fresh(request)
      ensures request.fields.Keys
           == {ServiceKeyField, CustomIncidentKeyField, IncidentKeyPrefixField, ClientField, ClientUrlField}
      ensures forall key :: key in request.fields ==> request.fields[key].name == key
      ensures forall key :: key in request.fields ==> (!IsOptional(request.fields[key]) <==> key == ServiceKeyField)
      ensures request.fields[ServiceKeyField].TextField? && request.fields[ServiceKeyField].textDefault == ""
      ensures request.fields[CustomIncidentKeyField].BooleanField?
           && request.fields[CustomIncidentKeyField].booleanDefault
      ensures request.fields[IncidentKeyPrefixField].TextField?
           && request.fields[IncidentKeyPrefixField].textDefault == "Graylog/"
      ensures request.fields[ClientField].TextField? && request.fields[ClientField].textDefault == "Graylog"
      ensures request.fields[ClientUrlField].TextField? && request.fields[ClientUrlField].textDefault == ""
    {
      request := new ConfigurationRequest();
      request.AddField(TextField(
        ServiceKeyField, "PagerDuty service key", "", "PagerDuty service key", NotOptional));
      request.AddField(BooleanField(
        CustomIncidentKeyField, "Use custom incident key", true,
        "Generate a custom incident key based on the Stream and the Alert Condition."));
      request.AddField(TextField(
        IncidentKeyPrefixField, "Incident key prefix", "Graylog/", "Identifies the incident.", Optional));
      request.AddField(TextField(
        ClientField, "Client name", "Graylog",
        "The name of the Graylog system that is triggering the PagerDuty event.", Optional));
      request.AddField(TextField(
        ClientUrlField, "Client URL", "",
        "The URL of the Graylog system that is triggering the PagerDuty event.", Optional));
    }

    /** call: builds a client from the stored configuration and triggers it; `response` is
        what the PagerDuty endpoint answers. */
    method Call(stream: LegacyClient.Stream, result: LegacyClient.CheckResult, response: LegacyClient.PagerDutyResponse)
      returns (triggered: Result<LegacyClient.PagerDutyEvent, Exception>)
      ensures configuration.None? ==> triggered == Failure(NullPointerException)
      ensures configuration.Some? ==>
        triggered == LegacyClient.Trigger(ClientFromConfiguration(configuration.value), stream, result, response)
    {
      if configuration.None? {
        return Failure(NullPointerException);
      }
      triggered := LegacyClient.Trigger(ClientFromConfiguration(configuration.value), stream, result, response);
    }

    method GetName() returns (name: string)
      ensures name == CallbackName
    {
      name := CallbackName;
    }
  }
}
