/** The custom resources, as far as the reconcilers read and write them. */
module Api {
  import opened Text
  import opened Conventions
  import opened Environment

  datatype Service = Service(hostname: string, origin: string, edgeTLSMode: string, proxyProtocol: string,
                             dnsRecord: Option<bool>)

  datatype L4Service = L4Service(name: string, origin: string, preferredPort: int)

  /** A reference to a tunnel; an empty namespace means the referrer's own. */
  datatype TunnelRef = TunnelRef(namespace: string, name: string)

  /** The tunnel and the routing a TowonelAgent declares. */
  datatype Agent = Agent(key: ObjectKey, tunnelRef: TunnelRef, services: seq<Service>, tcp: seq<L4Service>,
                         udp: seq<L4Service>)

  datatype PortAllocation = PortAllocation(name: string, protocol: Protocol, listenPort: int, edge: Edge) {
    function Key(): string { AllocKey(protocol, name) }
    function Slot(): Slot { Environment.Slot.Slot(protocol, listenPort) }
  }

  datatype DNSMode = Disabled | DNSEndpoint

  datatype TunnelDNSSpec = TunnelDNSSpec(
    mode: DNSMode,
    defaultTTL: int,
    namespace: string,
    cnameTarget: string,
    includeWildcards: bool,
    labels: map<string, string>,
    annotations: map<string, string>)

  datatype Reason = Synced | APIError | InvalidConfig | PortConflict | InviteRevoked | NoEdgeTarget | ForeignObject
                  | DNSCRDMissing

  datatype Condition = Condition(status: bool, reason: Reason)

  datatype DNSRecord = DNSRecord(hostname: string, target: string)

  datatype TunnelStatus = TunnelStatus(
    inviteID: string,
    tenantID: string,
    authorizedHostnames: seq<string>,
    portAllocations: seq<PortAllocation>,
    edges: seq<string>,
    dnsRecords: seq<DNSRecord>,
    hostnamesSynced: Option<Condition>,
    dnsSynced: Option<Condition>,
    portsReserved: Option<Condition>)

  /** A TowonelTunnel as one reconcile holds it: the status is edited in memory, then written. */
  class Tunnel {
    const key: ObjectKey
    const extraHostnames: seq<string>
    const retain: bool
    const dns: TunnelDNSSpec
    var status: TunnelStatus

    constructor (key: ObjectKey, extraHostnames: seq<string>, retain: bool, dns: TunnelDNSSpec, status: TunnelStatus)
      ensures this.key == key && this.extraHostnames == extraHostnames && this.retain == retain && this.dns == dns
      ensures this.status == status
    {
      this.key, this.extraHostnames, this.retain, this.dns, this.status := key, extraHostnames, retain, dns, status;
    }
  }
}
