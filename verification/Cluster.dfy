/** What the operator reads and writes: the custom resource, secrets, and the objects it keeps
    in the cluster. A built object is kept as what operator/controllers/provider reads to build
    it: the whole of its own section and of the global one, and of other sections the fields
    that are read. So what is built from the same is the same; for Monitoring the fields read of
    the Backup Daemon's section also show in the pod one by one. */
module Cluster {
  import opened Bytes
  import opened Claims

  /** A Kubernetes secret: its resource version identifies its content. */
  datatype Secret = Secret(name: string, version: string, autoRestart: bool)

  type Secrets = map<string, Secret>

  ghost predicate ValidSecrets(secrets: Secrets) {
    forall n :: n in secrets ==> n != "" && secrets[n].name == n && secrets[n].version != ""
  }

  /** A secret that was looked up but does not exist. */
  const NO_SECRET := Secret("", "", false)

  // ---------- the custom resource ----------

  /** How a snapshot or backup volume is given: not at all, for one pod only, by an existing
      claim, by a claim the operator creates, or by a volume whose name is missing. */
  datatype Volume =
    | NoVolume
    | Standalone(claim: string)
    | Existing(claim: string)
    | Managed(claim: string)
    | Unnamed

  /** The claim of a volume is there, if it needs one. */
  predicate InPlace(v: Volume, claims: ClaimMap) {
    v.NoVolume? || (!v.Unnamed? && NamedClaim(v.claim) in claims)
  }

  datatype GlobalSpec = GlobalSpec(pvcAnnotations: Annotations, settings: int)

  /** `storage` has the servers for which a volume, a label or a class is given. */
  datatype ZooKeeperSpec = ZooKeeperSpec(replicas: int, secretName: string, storage: set<int>,
                                         snapshots: Volume, rollingUpdate: bool, settings: int)

  datatype MonitoringSpec = MonitoringSpec(secretName: string, settings: int)

  /** `sslSecret` is the certificate's secret when TLS is enabled; a missing S3 section is one
      that is not enabled. */
  datatype BackupSpec = BackupSpec(secretName: string, storage: Volume, sslSecret: Option<string>,
                                   s3Enabled: bool, s3Secret: string, settings: int)

  /** What the Monitoring pod is built from of the Backup Daemon's section: a projected secret,
      a certificate volume, and an environment variable. */
  datatype BackupView = BackupView(secretName: string, sslSecret: Option<string>, s3Enabled: bool)

  function SeenByMonitoring(backup: Option<BackupSpec>): Option<BackupView> {
    if backup.None? then None
    else Some(BackupView(backup.value.secretName, backup.value.sslSecret, backup.value.s3Enabled))
  }

  /** A ZooKeeperService resource without a Vault section. */
  datatype Service = Service(global: GlobalSpec, zooKeeper: ZooKeeperSpec,
                             monitoring: Option<MonitoringSpec>, backup: Option<BackupSpec>)

  // ---------- the cluster ----------

  datatype ObjectName = ServerObject(id: int) | ClientObject | DomainObject | MonitoringObject | BackupObject

  /** No pod or service depends on the rollingUpdate switch. */
  function Steady(spec: ZooKeeperSpec): ZooKeeperSpec {
    spec.(rollingUpdate := false)
  }

  datatype Pod =
    | ZooKeeperPod(global: GlobalSpec, zooKeeper: ZooKeeperSpec, id: int)
    | MonitoringPod(global: GlobalSpec, monitoring: MonitoringSpec, backup: Option<BackupView>)
    | BackupPod(global: GlobalSpec, backupDaemon: BackupSpec, aliases: bool)

  datatype Endpoint =
    | ZooKeeperEndpoint(global: GlobalSpec, zooKeeper: ZooKeeperSpec, name: ObjectName)
    | MonitoringEndpoint(global: GlobalSpec, monitoring: MonitoringSpec)
    | BackupEndpoint(global: GlobalSpec, backup: BackupSpec)

  /** `stamps` are the template annotations <secret>/resource-version. */
  datatype Deployment = Deployment(replicas: int, pod: Pod, stamps: map<string, string>)

  type Deployments = map<ObjectName, Deployment>

  /** `recorded` is the annotation set in the resource's status, `writes` counts the create and
      update calls on deployments. */
  datatype Objects = Objects(services: map<ObjectName, Endpoint>, claims: ClaimMap,
                             deployments: Deployments, recorded: Annotations, writes: nat)

  const NOTHING := Objects(map[], map[], map[], map[], 0)

  // ---------- the operator's memory ----------

  datatype HashName = ZooKeeperHash | MonitoringHash | BackupHash | GlobalHash | SpecHash

  /** A hash is kept as what was hashed: hashing is taken to be injective. */
  datatype Digest =
    | OfZooKeeper(zooKeeper: ZooKeeperSpec)
    | OfMonitoring(monitoring: MonitoringSpec)
    | OfBackup(backup: BackupSpec)
    | OfGlobal(global: GlobalSpec)
    | OfService(service: Service)

  datatype Caches = Caches(versions: map<string, string>, hashes: map<HashName, Digest>)

  const EMPTY_CACHES := Caches(map[], map[])

  datatype World = World(objects: Objects, caches: Caches)

  // ---------- servers ----------

  function ActiveIds(d: Deployments): (ids: set<int>)
    ensures forall i :: i in ids <==> ServerObject(i) in d && d[ServerObject(i)].replicas > 0
  {
    set n | n in d && n.ServerObject? && d[n].replicas > 0 :: n.id
  }

  /** 1..n */
  function FirstIds(n: int): (ids: set<int>)
    ensures forall i :: i in ids <==> 1 <= i <= n
    ensures |ids| == if n > 0 then n else 0
    decreases if n > 0 then n else 0
  {
    if n <= 0 then {} else FirstIds(n - 1) + {n}
  }

  lemma SameSet<T>(a: set<T>, b: set<T>)
    requires forall i :: i in a <==> i in b
    ensures a == b
  {}
}
